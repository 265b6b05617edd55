/**
 * The Unicode services the lexers rely on but which are outside this model:
 * the XID_Start and XID_Continue properties of Unicode Standard Annex #31,
 * NFC normalisation of Unicode Standard Annex #15, and the lexer's string
 * unescaping. They are passed in as function values, so every property proved
 * holds whatever tables are supplied, except where `XidNested` is required.
 */
module Unicode {
  datatype Tables = Tables(
    xidStart: char -> bool,
    xidContinue: char -> bool,
    nfc: string -> string,
    unescape: string -> string)

  /**
   * Every XID_Start character is also XID_Continue, as section 2 of Unicode
   * Standard Annex #31 guarantees. A lexer that starts identifiers on
   * XID_Start but continues them on XID_Continue relies on it to make progress.
   */
  predicate XidNested(u: Tables)
  {
    forall c: char :: u.xidStart(c) ==> u.xidContinue(c)
  }
}
