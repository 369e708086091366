/** Value types shared by every part of the model: optional values, the
    exceptions the Python code raises (as values), and the few string
    operations the code relies on. */
module Common {

  datatype Option<+T> = None | Some(value: T) {
    function GetOr(default: T): T {
      match this
      case Some(v) => v
      case None => default
    }
  }

  /** The Python exceptions the modelled code raises. Scrapy's IgnoreRequest
      and NotConfigured are exceptions too; here they are error values. */
  datatype Error =
    | ValueError(message: string)
    | TypeError(message: string)
    | KeyError(key: string)
    | AttributeError(name: string)
    | UnboundLocalError(name: string)
    | IgnoreRequest(message: string)
    | NotConfigured

  datatype Result<+T> = Ok(value: T) | Err(error: Error) {
    predicate IsFailure() {
      Err?
    }

    function PropagateFailure<U>(): Result<U>
      requires Err?
    {
      Err(error)
    }

    function Extract(): T
      requires Ok?
    {
      value
    }
  }

  /** Python truthiness of an optional string: None and "" are falsy. */
  predicate TruthyId(id: Option<string>) {
    id.Some? && id.value != ""
  }

  /** `prefix` is a prefix of `s` (Python `s.startswith(prefix)`). */
  predicate StartsWith(s: string, prefix: string) {
    |prefix| <= |s| && s[..|prefix|] == prefix
  }

  /** `part` occurs in `s` starting at index `i`. */
  predicate OccursAt(s: string, part: string, i: int) {
    0 <= i <= |s| - |part| && s[i..i + |part|] == part
  }

  /** `part` occurs in `s` as a contiguous substring (Python `part in s`). */
  ghost predicate Contains(s: string, part: string) {
    exists i :: OccursAt(s, part, i)
  }

  /** Python `in` on strings, decided by scanning every start position. */
  function Occurs(s: string, part: string): (r: bool)
    ensures r <==> Contains(s, part)
  {
    if |part| > |s| then false
    else if s[..|part|] == part then
      assert OccursAt(s, part, 0);
      true
    else
      var rest := s[1..];
      var r := Occurs(rest, part);
      if r then
        var i :| OccursAt(rest, part, i);
        assert OccursAt(s, part, i + 1) by {
          assert s[i + 1..i + 1 + |part|] == rest[i..i + |part|];
        }
        true
      else
        assert forall i | OccursAt(s, part, i) :: i > 0 && OccursAt(rest, part, i - 1) by {
          forall i | OccursAt(s, part, i)
            ensures i > 0 && OccursAt(rest, part, i - 1)
          {
            assert i != 0;
            assert s[i..i + |part|] == rest[i - 1..i - 1 + |part|];
          }
        }
        false
  }

  function LowerChar(c: char): char {
    if 'A' <= c <= 'Z' then (c as int + 32) as char else c
  }

  /** Python `str.lower()` restricted to ASCII letters. */
  function Lower(s: string): (r: string)
    ensures |r| == |s|
    ensures forall i :: 0 <= i < |s| ==> r[i] == LowerChar(s[i])
  {
    if s == [] then [] else [LowerChar(s[0])] + Lower(s[1..])
  }
}
