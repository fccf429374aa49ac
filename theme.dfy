/**
 * Named colour tokens of the app theme (src/constants/theme.ts). Several tokens
 * share one hex value there, so the model compares tokens, never hex strings.
 */
module Theme {

  datatype ColorToken =
    | Primary
    | Secondary
    | Success
    | Warning
    | Error
    | Text
    | TextSecondary
}
