/** The Rust string operations the wire formats rely on. */
module Text {
  import opened Prelude

  /** `str::split_once(c)`: the parts before and after the first `c`. */
  function SplitFirst(s: string, c: char): Option<(string, string)> {
    if s == "" then None
    else if s[0] == c then Some(("", s[1..]))
    else
      match SplitFirst(s[1..], c)
      case None => None
      case Some((a, b)) => Some(([s[0]] + a, b))
  }

  /** `str::rsplit_once(c)`: the parts before and after the last `c`. */
  function SplitLast(s: string, c: char): Option<(string, string)> {
    if s == "" then None
    else
      match SplitLast(s[1..], c)
      case Some((a, b)) => Some(([s[0]] + a, b))
      case None => if s[0] == c then Some(("", s[1..])) else None
  }

  lemma {:induction false} SplitFirstIff(s: string, c: char, a: string, b: string)
    ensures SplitFirst(s, c) == Some((a, b)) <==> s == a + [c] + b && c !in a
  {
    if s != "" {
      if s[0] == c {
        assert s == [c] + s[1..];
      } else if a == "" {
        SplitFirstIff(s[1..], c, "", b);
      } else {
        SplitFirstIff(s[1..], c, a[1..], b);
        assert a == [a[0]] + a[1..];
        if s == a + [c] + b {
          assert s[1..] == a[1..] + [c] + b;
        }
      }
    }
  }

  lemma {:induction false} SplitFirstNone(s: string, c: char)
    ensures SplitFirst(s, c) == None <==> c !in s
  {
    if s != "" {
      SplitFirstNone(s[1..], c);
      assert s == [s[0]] + s[1..];
    }
  }

  lemma {:induction false} SplitLastNone(s: string, c: char)
    ensures SplitLast(s, c) == None <==> c !in s
  {
    if s != "" {
      SplitLastNone(s[1..], c);
      assert s == [s[0]] + s[1..];
    }
  }

  lemma {:induction false} SplitLastOf(a: string, c: char, b: string)
    requires c !in b
    ensures SplitLast(a + [c] + b, c) == Some((a, b))
  {
    var s := a + [c] + b;
    if a == "" {
      assert s[1..] == b;
      SplitLastNone(b, c);
    } else {
      assert s[1..] == a[1..] + [c] + b;
      SplitLastOf(a[1..], c, b);
      assert a == [a[0]] + a[1..];
    }
  }

  lemma {:induction false} SplitLastParts(s: string, c: char)
    requires SplitLast(s, c).Some?
    ensures var (a, b) := SplitLast(s, c).value; s == a + [c] + b && c !in b
  {
    SplitLastNone(s[1..], c);
    assert s == [s[0]] + s[1..];
    if SplitLast(s[1..], c).Some? {
      SplitLastParts(s[1..], c);
    }
  }

  /** The Unicode White_Space characters `str::trim` removes. */
  predicate IsWhitespace(c: char) {
    var n := c as int;
    9 <= n <= 13 || n == 32 || n == 0x85 || n == 0xA0 || n == 0x1680 || 0x2000 <= n <= 0x200A
    || n == 0x2028 || n == 0x2029 || n == 0x202F || n == 0x205F || n == 0x3000
  }

  predicate IsBlank(s: string) {
    forall c | c in s :: IsWhitespace(c)
  }

  function TrimStart(s: string): string {
    if s != "" && IsWhitespace(s[0]) then TrimStart(s[1..]) else s
  }

  function TrimEnd(s: string): string {
    if s != "" && IsWhitespace(s[|s| - 1]) then TrimEnd(s[..|s| - 1]) else s
  }

  /** `str::trim` */
  function Trim(s: string): string {
    TrimEnd(TrimStart(s))
  }

  lemma {:induction false} TrimStartOf(pad: string, s: string)
    requires IsBlank(pad) && s != "" && !IsWhitespace(s[0])
    ensures TrimStart(pad + s) == s
  {
    if pad == "" {
      assert pad + s == s;
    } else {
      assert (pad + s)[1..] == pad[1..] + s;
      assert pad[0] in pad;
      TrimStartOf(pad[1..], s);
    }
  }

  lemma {:induction false} TrimEndOf(s: string, pad: string)
    requires IsBlank(pad) && s != "" && !IsWhitespace(s[|s| - 1])
    ensures TrimEnd(s + pad) == s
  {
    if pad == "" {
      assert s + pad == s;
    } else {
      var n := |pad| - 1;
      assert (s + pad)[..|s + pad| - 1] == s + pad[..n];
      assert pad[n] in pad;
      TrimEndOf(s, pad[..n]);
    }
  }

  /** Surrounding whitespace is all that trimming takes away. */
  lemma TrimOf(before: string, s: string, after: string)
    requires IsBlank(before) && IsBlank(after)
    requires s != "" && !IsWhitespace(s[0]) && !IsWhitespace(s[|s| - 1])
    ensures Trim(before + s + after) == s
  {
    assert before + s + after == before + (s + after);
    TrimStartOf(before, s + after);
    TrimEndOf(s, after);
  }
}
