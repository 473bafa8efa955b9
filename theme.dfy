/** The colour palette of styles/commonStyles.ts, plus literal hex colours used by some screens. */
module Theme {
  datatype Color =
    | Background | TextColor | TextSecondary | Primary | Secondary | Accent
    | Card | Highlight | Success | Warning | Error | Info
    | Hex(code: string)
}
