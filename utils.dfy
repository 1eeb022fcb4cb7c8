/** `Utils.capitalize` of scripts/utils.js: the replacement of every match of
    the regular expression `\w\S*` by its first character upper-cased and the
    rest lower-cased. A match starts at a word character (`[A-Za-z0-9_]`) and
    runs over non-whitespace characters up to the next whitespace. */
module Utils {

  /** JavaScript's `\s`: the characters a regular expression treats as whitespace. */
  predicate IsSpace(c: char) {
    c == ' ' || c == '\t' || c == '\n' || c == '\r'
    || c as int == 0x0B || c as int == 0x0C || c as int == 0xA0 || c as int == 0x1680
    || (0x2000 <= c as int <= 0x200A) || c as int == 0x2028 || c as int == 0x2029
    || c as int == 0x202F || c as int == 0x205F || c as int == 0x3000 || c as int == 0xFEFF
  }

  /** JavaScript's `\w`. */
  predicate IsWord(c: char) {
    ('a' <= c <= 'z') || ('A' <= c <= 'Z') || ('0' <= c <= '9') || c == '_'
  }

  /** `toUpperCase` on one character, for the ASCII letters. */
  function Upper(c: char): (r: char)
    ensures IsWord(c) <==> IsWord(r)
    ensures IsSpace(c) <==> IsSpace(r)
    ensures !('a' <= r <= 'z')
  {
    if 'a' <= c <= 'z' then (c as int - 32) as char else c
  }

  /** `toLowerCase` on one character, for the ASCII letters. */
  function Lower(c: char): (r: char)
    ensures IsWord(c) <==> IsWord(r)
    ensures IsSpace(c) <==> IsSpace(r)
    ensures !('A' <= r <= 'Z')
  {
    if 'A' <= c <= 'Z' then (c as int + 32) as char else c
  }

  function LowerAll(s: string): (r: string)
    ensures |r| == |s|
    ensures forall i :: 0 <= i < |s| ==> r[i] == Lower(s[i])
  {
    if s == [] then [] else [Lower(s[0])] + LowerAll(s[1..])
  }

  predicate NoSpace(s: string) {
    forall i :: 0 <= i < |s| ==> !IsSpace(s[i])
  }

  /** Length of the leading run of non-whitespace characters: how far `\S*` reaches. */
  function RunLength(s: string): (k: nat)
    ensures k <= |s|
    ensures NoSpace(s[..k])
    ensures k < |s| ==> IsSpace(s[k])
  {
    if s == [] || IsSpace(s[0]) then 0 else 1 + RunLength(s[1..])
  }

  /** The replacement the callback computes for one match. */
  function CapitalizeMatch(m: string): (r: string)
    requires |m| >= 1
  {
    [Upper(m[0])] + LowerAll(m[1..])
  }

  /** `value.replace(/\w\S*\/g, …)`: scan left to right; at a word character
      replace the whole match, otherwise keep the character and move on. */
  function Capitalize(s: string): (r: string)
    ensures |r| == |s|
  {
    if s == [] then []
    else if IsWord(s[0]) then
      var k := RunLength(s);
      CapitalizeMatch(s[..k]) + Capitalize(s[k..])
    else [s[0]] + Capitalize(s[1..])
  }

  /** Every whitespace character stays in place and nothing else becomes whitespace. */
  lemma {:induction false} CapitalizeKeepsSpaces(s: string)
    ensures forall i :: 0 <= i < |s| ==> (IsSpace(s[i]) <==> IsSpace(Capitalize(s)[i]))
    ensures forall i :: 0 <= i < |s| && IsSpace(s[i]) ==> Capitalize(s)[i] == s[i]
  {
    if s != [] {
      var r := Capitalize(s);
      if IsWord(s[0]) {
        var k := RunLength(s);
        var m := CapitalizeMatch(s[..k]);
        CapitalizeKeepsSpaces(s[k..]);
        assert r == m + Capitalize(s[k..]);
        forall i | 0 <= i < |s| ensures (IsSpace(s[i]) <==> IsSpace(r[i])) && (IsSpace(s[i]) ==> r[i] == s[i]) {
          if i < k {
            assert s[..k][i] == s[i];
            assert !IsSpace(s[i]);
            assert r[i] == m[i];
          } else {
            assert r[i] == Capitalize(s[k..])[i - k];
            assert s[k..][i - k] == s[i];
          }
        }
      } else {
        CapitalizeKeepsSpaces(s[1..]);
        assert r == [s[0]] + Capitalize(s[1..]);
        forall i | 1 <= i < |s| ensures (IsSpace(s[i]) <==> IsSpace(r[i])) && (IsSpace(s[i]) ==> r[i] == s[i]) {
          assert r[i] == Capitalize(s[1..])[i - 1];
          assert s[1..][i - 1] == s[i];
        }
      }
    }
  }

  /** Index of the first word character of `t`, or |t| when it has none. */
  function FirstWord(t: string): (p: nat)
    ensures p <= |t|
    ensures forall i :: 0 <= i < p ==> !IsWord(t[i])
    ensures p < |t| ==> IsWord(t[p])
  {
    if t == [] || IsWord(t[0]) then 0 else 1 + FirstWord(t[1..])
  }

  /** Whitespace separates tokens: the text on each side is capitalized on its own
      and the whitespace character stays where it is. */
  lemma {:induction false} CapitalizeSplitsAtSpace(a: string, c: char, b: string)
    requires IsSpace(c)
    ensures Capitalize(a + [c] + b) == Capitalize(a) + [c] + Capitalize(b)
    decreases |a|, 1
  {
    var s := a + [c] + b;
    if a == [] {
      assert s == [c] + b;
      assert s[1..] == b;
    } else if IsWord(a[0]) {
      var k := RunLength(a);
      WordStep(a, c, b, k);
    } else {
      NonWordStep(a, c, b);
    }
  }

  lemma {:induction false} WordStep(a: string, c: char, b: string, k: nat)
    requires IsSpace(c) && a != [] && IsWord(a[0]) && k == RunLength(a)
    ensures Capitalize(a + [c] + b) == Capitalize(a) + [c] + Capitalize(b)
    decreases |a|, 0
  {
    var s := a + [c] + b;
    RunLengthOfSpaced(a, c, b);
    assert s[0] == a[0];
    assert s[..k] == a[..k];
    assert s[k..] == a[k..] + [c] + b;
    var m := CapitalizeMatch(a[..k]);
    assert Capitalize(s) == m + Capitalize(a[k..] + [c] + b);
    assert Capitalize(a) == m + Capitalize(a[k..]);
    CapitalizeSplitsAtSpace(a[k..], c, b);
  }

  lemma {:induction false} NonWordStep(a: string, c: char, b: string)
    requires IsSpace(c) && a != [] && !IsWord(a[0])
    ensures Capitalize(a + [c] + b) == Capitalize(a) + [c] + Capitalize(b)
    decreases |a|, 0
  {
    var s := a + [c] + b;
    assert s[0] == a[0];
    assert s[1..] == a[1..] + [c] + b;
    assert Capitalize(s) == [a[0]] + Capitalize(a[1..] + [c] + b);
    CapitalizeSplitsAtSpace(a[1..], c, b);
  }

  lemma {:induction false} RunLengthOfSpaced(a: string, c: char, b: string)
    requires IsSpace(c)
    ensures RunLength(a + [c] + b) == RunLength(a)
  {
    var s := a + [c] + b;
    if a != [] && !IsSpace(a[0]) {
      assert s[1..] == a[1..] + [c] + b;
      RunLengthOfSpaced(a[1..], c, b);
    }
  }

  /** A whitespace-free token with the characters before its first word
      character kept, that character upper-cased and every later one
      lower-cased; a token without a word character is kept as it is. */
  function TokenForm(t: string): string {
    var p := FirstWord(t);
    t[..p] + (if p < |t| then [Upper(t[p])] + LowerAll(t[p + 1..]) else [])
  }

  /** Within one whitespace-free token, `capitalize` gives the token's form. */
  lemma {:induction false} CapitalizeToken(t: string)
    requires NoSpace(t)
    ensures Capitalize(t) == TokenForm(t)
  {
    if t != [] {
      if IsWord(t[0]) {
        TokenFromWord(t);
      } else {
        assert NoSpace(t[1..]);
        CapitalizeToken(t[1..]);
        assert Capitalize(t) == [t[0]] + Capitalize(t[1..]);
        TokenFromSkip(t);
      }
    }
  }

  /** A token that starts with a word character is one whole match. */
  lemma TokenFromWord(t: string)
    requires NoSpace(t) && t != [] && IsWord(t[0])
    ensures Capitalize(t) == TokenForm(t)
  {
    assert RunLength(t) == |t| by { RunLengthNoSpace(t); }
    assert t[|t|..] == [];
    assert t[..|t|] == t;
    assert FirstWord(t) == 0 && t[..0] == [];
  }

  /** A leading character that is not a word character is kept. */
  lemma TokenFromSkip(t: string)
    requires t != [] && !IsWord(t[0])
    ensures TokenForm(t) == [t[0]] + TokenForm(t[1..])
  {
    var u := t[1..];
    var q := FirstWord(u);
    assert FirstWord(t) == q + 1;
    var rest := if q < |u| then [Upper(u[q])] + LowerAll(u[q + 1..]) else [];
    assert TokenForm(u) == u[..q] + rest;
    assert TokenForm(t) == t[..q + 1] + rest by {
      if q < |u| {
        SuffixAfterHead(t, q + 2);
        assert t[q + 1] == u[q];
      }
    }
    PrefixAfterHead(t, q + 1);
    ConcatAssoc([t[0]], u[..q], rest);
  }

  lemma ConcatAssoc<T>(a: seq<T>, b: seq<T>, c: seq<T>)
    ensures a + b + c == a + (b + c)
  {
  }

  lemma PrefixAfterHead<T>(s: seq<T>, n: nat)
    requires 1 <= n <= |s|
    ensures s[..n] == [s[0]] + s[1..][..n - 1]
  {
  }

  lemma SuffixAfterHead<T>(s: seq<T>, n: nat)
    requires 1 <= n <= |s|
    ensures s[n..] == s[1..][n - 1..]
  {
  }

  lemma {:induction false} RunLengthNoSpace(t: string)
    requires NoSpace(t)
    ensures RunLength(t) == |t|
  {
    if t != [] {
      RunLengthNoSpace(t[1..]);
    }
  }

  /** Capitalizing twice is capitalizing once. */
  lemma {:induction false} CapitalizeIdempotent(s: string)
    ensures Capitalize(Capitalize(s)) == Capitalize(s)
    decreases |s|
  {
    if s != [] {
      if IsWord(s[0]) {
        var k := RunLength(s);
        var w := s[..k];
        var r := Capitalize(s);
        assert r == CapitalizeMatch(w) + Capitalize(s[k..]);
        MatchIdempotent(w);
        if k == |s| {
          assert s[k..] == [];
        } else {
          var b := s[k + 1..];
          assert s[k..] == [s[k]] + b;
          CapitalizeSplitsAtSpace([], s[k], b);
          assert Capitalize(s[k..]) == [s[k]] + Capitalize(b);
          assert r == CapitalizeMatch(w) + [s[k]] + Capitalize(b);
          CapitalizeSplitsAtSpace(CapitalizeMatch(w), s[k], Capitalize(b));
          CapitalizeIdempotent(b);
        }
      } else {
        assert Capitalize(s) == [s[0]] + Capitalize(s[1..]);
        assert Capitalize(s)[1..] == Capitalize(s[1..]);
        CapitalizeIdempotent(s[1..]);
      }
    }
  }

  /** A capitalized match, capitalized again, is unchanged. */
  lemma MatchIdempotent(w: string)
    requires |w| >= 1 && NoSpace(w) && IsWord(w[0])
    ensures Capitalize(CapitalizeMatch(w)) == CapitalizeMatch(w)
  {
    var m := CapitalizeMatch(w);
    assert NoSpace(m);
    RunLengthNoSpace(m);
    assert m[..|m|] == m;
    assert m[|m|..] == [];
    var again := CapitalizeMatch(m);
    assert again[0] == m[0];
    forall i | 1 <= i < |m| ensures again[i] == m[i] {
      assert again[i] == Lower(m[i]);
    }
  }
}
