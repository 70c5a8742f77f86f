/** Identifiers, results and errors every component shares. */
module Common {
  datatype Option<+T> = None | Some(value: T)

  /** The stores' errors, as callers tell them apart. */
  datatype Error =
    | RecordNotFound
    | RecordExists
    | InvalidArgument
    | InvalidPolicy
    | PreconditionFailed
    | PublishFailed
    | NamedAgain
    | NameConflict
    | UnknownBucket
    | ForeignBucket
    | BucketNotPermitted
    | OperationNotPermitted
    | UnknownAccessKey
    | RegionMismatch

  datatype Result<+T> = Ok(value: T) | Err(error: Error)

  /** A decentralised identifier; the undefined one is the empty string. */
  type Did = string
  const UNDEF: Did := ""

  /** A principal's external id within its tenant. */
  type PrincipalId = string

  /** How many bytes a string takes in UTF-8. */
  function Utf8Size(s: string): nat {
    if s == "" then 0
    else
      var c := s[0] as int;
      (if c < 0x80 then 1 else if c < 0x800 then 2 else if c < 0x1_0000 then 3 else 4) + Utf8Size(s[1..])
  }

  /** Sizes add up, and a character takes one byte up to U+007F, two up to U+07FF,
      three up to U+FFFF and four beyond. */
  lemma {:induction false} Utf8Adds(a: string, b: string)
    ensures Utf8Size(a + b) == Utf8Size(a) + Utf8Size(b)
    ensures forall c: char ::
      Utf8Size([c]) == 1 + (if c > '\U{7F}' then 1 else 0) + (if c > '\U{7FF}' then 1 else 0) + if c > '\U{FFFF}' then 1 else 0
  {
    if a == "" {
      assert a + b == b;
    } else {
      assert (a + b)[1..] == a[1..] + b;
      Utf8Adds(a[1..], b);
    }
  }

  /** A Forge command: slash-separated segments starting at the top command. */
  type Command = s: string | |s| > 0 && s[0] == '/' witness "/"
  const TOP: Command := "/"
}
