/** Small shared datatypes and sequence helpers. */
module Wrappers {
  datatype Option<+T> = None | Some(value: T)

  datatype Result<+T, +E> = Success(value: T) | Failure(error: E)

  /** The pieces of a text, joined in order. */
  function Join(parts: seq<string>): string {
    if |parts| == 0 then "" else Join(parts[..|parts| - 1]) + parts[|parts| - 1]
  }

  lemma {:induction false} JoinSnoc(parts: seq<string>, last: string)
    ensures Join(parts + [last]) == Join(parts) + last
  {
    assert (parts + [last])[..|parts|] == parts;
  }

  predicate IsSpace(c: char) {
    c == ' ' || c == '\t' || c == '\n' || c == '\r'
  }

  /** The text without leading and trailing white space. */
  function TrimSpace(s: string): string
    decreases |s|
  {
    if |s| == 0 then s
    else if IsSpace(s[0]) then TrimSpace(s[1..])
    else if IsSpace(s[|s| - 1]) then TrimSpace(s[..|s| - 1])
    else s
  }

  /** A member of a set that is not empty. */
  lemma Pick<T>(s: set<T>) returns (x: T)
    requires s != {}
    ensures x in s
  {
    x :| x in s;
  }

  lemma Regroup<T>(a: seq<T>, b: seq<T>, c: seq<T>)
    ensures a + (b + c) == (a + b) + c
  {
  }

  predicate Trimmed(s: string) {
    |s| > 0 ==> !IsSpace(s[0]) && !IsSpace(s[|s| - 1])
  }

  lemma {:induction false} TrimIdempotent(s: string)
    ensures TrimSpace(TrimSpace(s)) == TrimSpace(s)
  {
    TrimTrims(s);
  }

  lemma {:induction false} TrimTrims(s: string)
    ensures Trimmed(TrimSpace(s))
    decreases |s|
  {
    if |s| > 0 && IsSpace(s[0]) {
      TrimTrims(s[1..]);
    } else if |s| > 0 && IsSpace(s[|s| - 1]) {
      TrimTrims(s[..|s| - 1]);
    }
  }

  predicate AllBlank(s: string) {
    forall i :: 0 <= i < |s| ==> s[i] == ' ' || s[i] == '\t' || s[i] == '\n' || s[i] == '\r'
  }

  /** Trimming takes blanks off both ends, and all of them. */
  lemma {:induction false} TrimKeeps(s: string) returns (left: string, right: string)
    ensures s == left + TrimSpace(s) + right && AllBlank(left) && AllBlank(right)
    ensures var t := TrimSpace(s); |t| > 0 ==> !AllBlank(t[..1]) && !AllBlank(t[|t| - 1..])
    decreases |s|
  {
    hide AllBlank;
    left, right := "", "";
    var n := |s| - 1;
    if n < 0 {
      NothingBlank();
    } else if IsSpace(s[0]) {
      left, right := TrimKeeps(s[1..]);
      BlankMore(left, s[0]);
      assert s == [s[0]] + s[1..];
      left := [s[0]] + left;
    } else if IsSpace(s[n]) {
      left, right := TrimKeeps(s[..n]);
      BlankMore(right, s[n]);
      assert s == s[..n] + [s[n]];
      Regroup(left + TrimSpace(s), right, [s[n]]);
      right := right + [s[n]];
    } else {
      NothingBlank();
      SolidEnds(s);
    }
  }

  lemma {:induction false} NothingBlank()
    ensures AllBlank("")
  {
  }

  lemma {:induction false} BlankMore(s: string, c: char)
    requires AllBlank(s) && IsSpace(c)
    ensures AllBlank([c] + s) && AllBlank(s + [c])
  {
  }

  lemma {:induction false} SolidEnds(s: string)
    requires |s| > 0 && !IsSpace(s[0]) && !IsSpace(s[|s| - 1])
    ensures !AllBlank(s[..1]) && !AllBlank(s[|s| - 1..])
  {
    assert s[..1][0] == s[0] && s[|s| - 1..][0] == s[|s| - 1];
  }
}
