/** `Operation::from_str` of the admin command module: three full keywords,
    no short forms. */
module AdminCommands {
  import opened Results
  import Ascii

  datatype Operation = Upload | Delete | Download

  const UnknownOperation := "Unknown Operation"

  /** The one keyword each operation accepts, in lower case. */
  function Keyword(op: Operation): string {
    match op
    case Upload => "upload"
    case Delete => "delete"
    case Download => "download"
  }

  /** `Operation::from_str`: the lower-cased input must be one of the three
      keywords; anything else is "Unknown Operation". */
  function ParseOperation(s: string): (r: Result<Operation, string>)
    ensures r.Ok? ==> Ascii.ToLower(s) == Keyword(r.value)
    ensures r.Err? ==> (r.error == UnknownOperation
      && forall op: Operation :: Ascii.ToLower(s) != Keyword(op))
  {
    match Ascii.ToLower(s)
    case "upload" => Ok(Upload)
    case "delete" => Ok(Delete)
    case "download" => Ok(Download)
    case _ => Err(UnknownOperation)
  }

  /** Each keyword parses back to its operation, in any case, and the three
      keywords are distinct. */
  lemma KeywordRoundTrip(op: Operation, s: string)
    requires Ascii.ToLower(s) == Keyword(op)
    ensures ParseOperation(s) == Ok(op)
    ensures ParseOperation(Keyword(op)) == Ok(op)
  {
    Ascii.ToLowerOfLower(Keyword(op));
  }

  lemma KeywordsDistinct(a: Operation, b: Operation)
    requires a != b
    ensures Keyword(a) != Keyword(b)
  {
  }

  /** Parsing ignores case. */
  lemma ParseOperationIgnoresCase(s: string)
    ensures ParseOperation(s) == ParseOperation(Ascii.ToLower(s))
  {
    Ascii.ToLowerIdempotent(s);
  }

  /** The short forms the `files` command accepts are rejected here. */
  lemma ShortFormsRejected()
    ensures ParseOperation("up") == Err(UnknownOperation)
    ensures ParseOperation("rm") == Err(UnknownOperation)
  {
  }
}
