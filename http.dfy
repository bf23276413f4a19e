/** What the service functions see of a `fetch` response: the `ok` flag, the
    status line and the body, and the `handleJson` rule the campaign and
    dashboard services share. The request itself is not part of the model. */
module Http {
  import opened Wrappers
  import opened Strings

  datatype Response<+T> = Response(ok: bool, status: int, statusText: string, body: T)

  /** The error text of a failed response: `"<prefix>: <status> <statusText>"`. */
  function FailureText(prefix: string, status: int, statusText: string): string {
    prefix + ": " + IntToString(status) + " " + statusText
  }

  /** `handleJson(res, prefix)`: a failed response throws an error naming the
      call and the status line; any other gives its body. */
  function HandleJson<T>(res: Response<T>, prefix: string): (r: Result<T>)
    ensures r.Ok? <==> res.ok
    ensures r.Ok? ==> r.value == res.body
    ensures r.Err? ==> r.message == FailureText(prefix, res.status, res.statusText)
  {
    if !res.ok then Err(FailureText(prefix, res.status, res.statusText)) else Ok(res.body)
  }

  /** The status and its text can be read back from the error: two failed
      responses of the same call give the same error exactly when their status
      lines agree. */
  lemma FailureNamesStatus<T>(r1: Response<T>, r2: Response<T>, prefix: string)
    requires !r1.ok && !r2.ok && r1.status >= 0 && r2.status >= 0
    ensures HandleJson(r1, prefix) == HandleJson(r2, prefix) <==>
      r1.status == r2.status && r1.statusText == r2.statusText
  {
    if HandleJson(r1, prefix) == HandleJson(r2, prefix) {
      var head := prefix + ": ";
      var a, b := NatToString(r1.status), NatToString(r2.status);
      var m1, m2 := FailureText(prefix, r1.status, r1.statusText), FailureText(prefix, r2.status, r2.statusText);
      assert m1 == head + (a + " " + r1.statusText);
      assert m2 == head + (b + " " + r2.statusText);
      assert m1[|head|..] == a + " " + r1.statusText;
      assert m2[|head|..] == b + " " + r2.statusText;
      StatusLineSplits(r1.status, r1.statusText, r2.status, r2.statusText);
    }
  }

  /** A status line splits at its first space into the status and its text. */
  lemma StatusLineSplits(s1: nat, t1: string, s2: nat, t2: string)
    requires NatToString(s1) + " " + t1 == NatToString(s2) + " " + t2
    ensures s1 == s2 && t1 == t2
  {
    var a, b := NatToString(s1), NatToString(s2);
    var line := a + " " + t1;
    FirstSpace(a, t1);
    FirstSpace(b, t2);
    assert a == line[..|a|] && b == line[..|b|];
    NatToStringValue(s1);
    NatToStringValue(s2);
    assert t1 == line[|a| + 1..];
  }

  lemma FirstSpace(digits: string, rest: string)
    requires forall i :: 0 <= i < |digits| ==> IsDigit(digits[i])
    ensures IndexOfChar(digits + " " + rest, ' ') == |digits|
  {
    var line := digits + " " + rest;
    assert line[|digits|] == ' ';
    assert forall i :: 0 <= i < |digits| ==> line[i] == digits[i];
  }
}
