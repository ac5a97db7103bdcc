/** The errors the CRUD handlers throw, and the message each one shows. */
module Errors {
  import opened Text

  datatype Error =
    | BadIndex                // the index field is not a non-negative integer
    | MissingFields           // a required item field is empty
    | OutOfRange(length: nat) // the index is past the end of the collection just read
    | Unauthorized            // the remote store answered 401 or 403
    | Http(status: nat)       // the remote store answered another non-2xx status
    | UnexpectedJson          // the remote body held no collection

  /** `err.message` of the thrown error. */
  function Message(e: Error): (m: string)
    ensures m != []
  {
    match e
    case BadIndex => "Index must be a non-negative integer."
    // long literals are written in two parts so that the verifier can see their characters
    case MissingFields => "Title, Image URL, Link URL, " + "and Description are required."
    case OutOfRange(n) => "Index out of range. Current length: " + Decimal(n) + "."
    case Unauthorized => "Unauthorized. Set JSONBin master key."
    case Http(s) => "HTTP " + Decimal(s)
    case UnexpectedJson => "Unexpected JSON from JSONBin"
  }

  /** The characters that tell the six messages apart. */
  lemma MessageMarks(e: Error)
    ensures var m := Message(e);
      && |m| > 2
      && (m[0] == 'I' <==> e.BadIndex? || e.OutOfRange?)
      && (m[0] == 'T' <==> e.MissingFields?)
      && (m[0] == 'U' <==> e.Unauthorized? || e.UnexpectedJson?)
      && (m[0] == 'H' <==> e.Http?)
      && (e.BadIndex? ==> |m| > 6 && m[6] == 'm')
      && (e.OutOfRange? ==> |m| > 6 && m[6] == 'o')
      && (e.Unauthorized? ==> m[2] == 'a')
      && (e.UnexpectedJson? ==> m[2] == 'e')
  {
    match e
    case BadIndex => BadIndexMarks();
    case MissingFields => MissingFieldsMarks();
    case OutOfRange(n) => OutOfRangeMarks(n);
    case Unauthorized => UnauthorizedMarks();
    case Http(s) => HttpMarks(s);
    case UnexpectedJson => UnexpectedJsonMarks();
  }

  lemma BadIndexMarks()
    ensures var m := Message(BadIndex); |m| > 6 && m[0] == 'I' && m[6] == 'm'
  {
  }

  lemma MissingFieldsMarks()
    ensures var m := Message(MissingFields); |m| > 2 && m[0] == 'T'
  {
  }

  lemma OutOfRangeMarks(n: nat)
    ensures var m := Message(OutOfRange(n)); |m| > 6 && m[0] == 'I' && m[6] == 'o'
  {
    var m := Message(OutOfRange(n));
    assert m[..36] == "Index out of range. Current length: ";
  }

  lemma UnauthorizedMarks()
    ensures var m := Message(Unauthorized); |m| > 2 && m[0] == 'U' && m[2] == 'a'
  {
  }

  lemma HttpMarks(s: nat)
    ensures var m := Message(Http(s)); |m| > 2 && m[0] == 'H'
  {
    assert |Decimal(s)| >= 1;
  }

  lemma UnexpectedJsonMarks()
    ensures var m := Message(UnexpectedJson); |m| > 2 && m[0] == 'U' && m[2] == 'e'
  {
  }

  /** The status line names the error exactly: two errors with the same
      message are the same error, so 401/403 never read like a 500, and the
      status or length printed is the one that occurred. */
  lemma MessageInjective(a: Error, b: Error)
    requires Message(a) == Message(b)
    ensures a == b
  {
    var m := Message(a);
    MessageMarks(a);
    MessageMarks(b);
    if a.OutOfRange? && b.OutOfRange? {
      var prefix := "Index out of range. Current length: ";
      assert m == prefix + Decimal(a.length) + ".";
      assert m == prefix + Decimal(b.length) + ".";
      assert Decimal(a.length) == m[|prefix|..|m| - 1] == Decimal(b.length);
      DecimalInjective(a.length, b.length);
    } else if a.Http? && b.Http? {
      assert Decimal(a.status) == m[5..] == Decimal(b.status);
      DecimalInjective(a.status, b.status);
    }
  }
}
