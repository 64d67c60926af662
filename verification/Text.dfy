/** String helpers shared by the record keys and the adapters: slash-joined
    keys and when they can be taken apart again. */
module Text {

  datatype Option<+T> = None | Some(value: T)

  predicate Has(c: char, s: string) {
    c in s
  }

  predicate SlashFree(s: string) {
    !Has('/', s)
  }

  function Join(left: string, right: string): string {
    left + "/" + right
  }

  /** A slash-free left part can be recovered from the joined string. */
  lemma {:induction false} JoinLeftUnique(a: string, x: string, b: string, y: string)
    requires SlashFree(a) && SlashFree(b)
    requires Join(a, x) == Join(b, y)
    ensures a == b && x == y
  {
    var s, t := Join(a, x), Join(b, y);
    assert s[|a|] == '/' && t[|b|] == '/';
    assert t[..|b|] == b && s[..|a|] == a;
    assert forall i :: 0 <= i < |b| ==> t[i] != '/';
    assert forall i :: 0 <= i < |a| ==> s[i] != '/';
    assert a == s[..|a|] == t[..|b|] == b;
    assert x == s[|a| + 1..] == t[|b| + 1..] == y;
  }

  /** A slash-free right part can be recovered from the joined string. */
  lemma {:induction false} JoinRightUnique(a: string, x: string, b: string, y: string)
    requires SlashFree(x) && SlashFree(y)
    requires Join(a, x) == Join(b, y)
    ensures a == b && x == y
  {
    var s, t := Join(a, x), Join(b, y);
    assert s[|a|] == '/' && t[|b|] == '/';
    assert s[|a| + 1..] == x && t[|b| + 1..] == y;
    assert forall i :: |a| < i < |s| ==> s[i] == x[i - |a| - 1] && s[i] != '/';
    assert forall i :: |b| < i < |t| ==> t[i] == y[i - |b| - 1] && t[i] != '/';
    assert a == s[..|a|] == t[..|b|] == b;
    assert x == s[|a| + 1..] == t[|b| + 1..] == y;
  }

  function Slashes(s: string): nat {
    if s == "" then 0 else (if s[0] == '/' then 1 else 0) + Slashes(s[1..])
  }

  lemma {:induction false} SlashesOfConcat(s: string, t: string)
    ensures Slashes(s + t) == Slashes(s) + Slashes(t)
  {
    if s == "" {
      assert s + t == t;
    } else {
      assert (s + t)[1..] == s[1..] + t;
      SlashesOfConcat(s[1..], t);
    }
  }

  lemma {:induction false} SlashFreeIffNoSlashes(s: string)
    ensures SlashFree(s) <==> Slashes(s) == 0
  {
    if s != "" {
      assert s == [s[0]] + s[1..];
      SlashFreeIffNoSlashes(s[1..]);
    }
  }

  lemma SlashesOfJoin(a: string, b: string)
    ensures Slashes(Join(a, b)) == Slashes(a) + 1 + Slashes(b)
  {
    SlashesOfConcat(a + "/", b);
    SlashesOfConcat(a, "/");
  }

  /** A string with a slash splits at its first one. */
  lemma {:induction false} SplitAtSlash(s: string) returns (p: string, q: string)
    requires !SlashFree(s)
    ensures s == Join(p, q) && SlashFree(p)
  {
    if s[0] == '/' {
      p, q := "", s[1..];
    } else {
      assert s == [s[0]] + s[1..];
      p, q := SplitAtSlash(s[1..]);
      p := [s[0]] + p;
    }
  }
}
