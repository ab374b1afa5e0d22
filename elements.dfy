/**
 * The HUD elements and transient effects, as values: only which element
 * exists and what an alert says; their drawing is not part of this model.
 */
module Elements {

  datatype Element =
    | PlayerPowerBar
    | BossPowerBar
    | SchematicList
    | Alert(msg: string)
    | Explosion(x: real, y: real)
}
