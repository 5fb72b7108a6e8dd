/** `InvoicingParser::parse_invoicing_file`: the billing export is read as
    text and every tab stop is turned into a comma, so that the result can be
    parsed as comma-separated records. */
module InvoicingParser {
  import opened Strings
  import opened Wrappers

  /** `lines.replace("\t", ",")`. */
  function TabsToCommas(s: string): (r: string)
    ensures |r| == |s|
    ensures '\t' !in r
    ensures forall i :: 0 <= i < |s| && s[i] != '\t' ==> r[i] == s[i]
    ensures forall i :: 0 <= i < |s| && s[i] == '\t' ==> r[i] == ','
  {
    ReplaceCharByChar(s, '\t', ',');
    ReplaceAll(s, "\t", ",")
  }

  /** Cleaning twice is the same as cleaning once. */
  lemma TabsToCommasIdempotent(s: string)
    ensures TabsToCommas(TabsToCommas(s)) == TabsToCommas(s)
  {
    var r := TabsToCommas(s);
    ReplaceAbsent(r, "\t", ",");
  }

  /** The whole parser, with the file's contents (or the read error) given:
      a read error is passed on unchanged (the `?` on `read_to_string`),
      otherwise the cleaned text is returned. */
  function ParseInvoicingFile<E>(contents: Result<string, E>): (r: Result<string, E>)
    ensures r.Failure? <==> contents.Failure?
    ensures contents.Failure? ==> r.error == contents.error
    ensures contents.Success? ==> |r.value| == |contents.value| && '\t' !in r.value
    ensures contents.Success? ==> forall i :: 0 <= i < |contents.value| ==>
              r.value[i] == if contents.value[i] == '\t' then ',' else contents.value[i]
  {
    match contents
    case Failure(e) => Failure(e)
    case Success(text) => Success(TabsToCommas(text))
  }
}
