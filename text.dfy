/**
 * Text primitives shared by the suspicion scorer and the sentiment analyzer:
 * ASCII lower-casing, Python's argument-less `str.split()`, the substring
 * test `needle in text`, and the token frequencies a `collections.Counter`
 * reports.
 */
module Text {

  /** The characters Python's `str.isspace()` accepts: the separators of `str.split()`. */
  predicate IsSpace(c: char) {
    || c == ' '
    || ('\t' <= c <= '\r')
    || ('\U{1C}' <= c <= '\U{1F}')
    || c == '\U{85}' || c == '\U{A0}' || c == '\U{1680}'
    || ('\U{2000}' <= c <= '\U{200A}')
    || c == '\U{2028}' || c == '\U{2029}' || c == '\U{202F}' || c == '\U{205F}' || c == '\U{3000}'
  }

  /** `str.lower()` on one character, restricted to the ASCII letters. */
  function LowerChar(c: char): char {
    if 'A' <= c <= 'Z' then (c as int + 32) as char else c
  }

  /**
   * `str.lower()`, character by character: the result has the same length,
   * turns each upper-case ASCII letter into its lower-case letter, and keeps
   * every other character.
   */
  function Lower(s: string): (r: string)
    ensures |r| == |s|
    ensures forall i :: 0 <= i < |r| ==> !('A' <= r[i] <= 'Z')
    ensures forall i :: 0 <= i < |s| && 'A' <= s[i] <= 'Z' ==> r[i] as int == s[i] as int + 32
    ensures forall i :: 0 <= i < |s| && !('A' <= s[i] <= 'Z') ==> r[i] == s[i]
  {
    seq(|s|, i requires 0 <= i < |s| => LowerChar(s[i]))
  }

  /** A token `str.split()` can produce: non-empty and free of whitespace. */
  predicate IsWord(w: string) {
    |w| > 0 && forall i :: 0 <= i < |w| ==> !IsSpace(w[i])
  }

  /** The longest prefix of `s` that holds no whitespace. */
  function TakeWord(s: string): (w: string)
    ensures w <= s
    ensures forall i :: 0 <= i < |w| ==> !IsSpace(w[i])
    ensures |w| < |s| ==> IsSpace(s[|w|])
  {
    if s == [] || IsSpace(s[0]) then [] else [s[0]] + TakeWord(s[1..])
  }

  /**
   * `s.split()`: the maximal runs of non-whitespace characters, in order;
   * leading, trailing and repeated whitespace produce no empty token.
   */
  function Words(s: string): (ws: seq<string>)
    ensures forall k :: 0 <= k < |ws| ==> IsWord(ws[k])
    decreases |s|
  {
    if s == [] then []
    else if IsSpace(s[0]) then Words(s[1..])
    else
      var w := TakeWord(s);
      [w] + Words(s[|w|..])
  }

  /** `" ".join(ws)`. */
  function JoinSpace(ws: seq<string>): string {
    if ws == [] then []
    else if |ws| == 1 then ws[0]
    else ws[0] + [' '] + JoinSpace(ws[1..])
  }

  /** A separating whitespace character ends the first word: the word cannot run across it. */
  lemma {:induction false} TakeWordBeforeSpace(a: string, c: char, b: string)
    requires IsSpace(c)
    ensures TakeWord(a + [c] + b) == TakeWord(a)
    decreases |a|
  {
    var s := a + [c] + b;
    if a == [] {
      assert s[0] == c;
    } else if IsSpace(a[0]) {
      assert s[0] == a[0];
    } else {
      assert s[0] == a[0] && s[1..] == a[1..] + [c] + b;
      TakeWordBeforeSpace(a[1..], c, b);
    }
  }

  /** Dropping a prefix of `a` from `a + [c] + b`. */
  lemma DropAroundSpace(a: string, c: char, b: string, n: nat)
    requires n <= |a|
    ensures (a + [c] + b)[n..] == a[n..] + [c] + b
  {
  }

  /** A text that starts with a word splits into that word and the split of the rest. */
  lemma WordsOfLeadingWord(s: string)
    requires s != [] && !IsSpace(s[0])
    ensures |TakeWord(s)| > 0
    ensures Words(s) == [TakeWord(s)] + Words(s[|TakeWord(s)|..])
  {
  }

  /**
   * Splitting `a + c + b` at a whitespace character `c` splits `a` and `b`
   * separately: no token spans `c`, and `c` yields no token of its own.
   * Applied repeatedly, a run of whitespace of any kind separates like one blank.
   */
  lemma {:induction false} WordsAroundSpace(a: string, c: char, b: string)
    requires IsSpace(c)
    ensures Words(a + [c] + b) == Words(a) + Words(b)
    decreases |a|
  {
    var s := a + [c] + b;
    if a == [] {
      assert s[0] == c && s[1..] == b;
    } else if IsSpace(a[0]) {
      DropAroundSpace(a, c, b, 1);
      assert s[0] == a[0];
      calc {
        Words(s);
        Words(s[1..]);
        { WordsAroundSpace(a[1..], c, b); }
        Words(a[1..]) + Words(b);
      }
    } else {
      assert s[0] == a[0];
      var w := TakeWord(a);
      TakeWordBeforeSpace(a, c, b);
      WordsOfLeadingWord(a);
      calc {
        Words(s);
        { WordsOfLeadingWord(s); }
        [w] + Words(s[|w|..]);
        { DropAroundSpace(a, c, b, |w|); }
        [w] + Words(a[|w|..] + [c] + b);
        { WordsAroundSpace(a[|w|..], c, b); }
        [w] + (Words(a[|w|..]) + Words(b));
        ([w] + Words(a[|w|..])) + Words(b);
      }
    }
  }

  /** A single token splits to itself. */
  lemma WordsOfWord(w: string)
    requires IsWord(w)
    ensures Words(w) == [w]
  {
    var t := TakeWord(w);
    assert t == w;
    assert w[|t|..] == [];
  }

  /** Splitting undoes `" ".join` of tokens. */
  lemma {:induction false} WordsOfJoinSpace(ws: seq<string>)
    requires forall k :: 0 <= k < |ws| ==> IsWord(ws[k])
    ensures Words(JoinSpace(ws)) == ws
  {
    if ws == [] {
    } else if |ws| == 1 {
      WordsOfWord(ws[0]);
    } else {
      WordsAroundSpace(ws[0], ' ', JoinSpace(ws[1..]));
      WordsOfWord(ws[0]);
      WordsOfJoinSpace(ws[1..]);
      assert [ws[0]] + ws[1..] == ws;
    }
  }

  /** Lower-casing works on each side of a blank separately. */
  lemma LowerAroundSpace(a: string, b: string)
    ensures Lower(a + [' '] + b) == Lower(a) + [' '] + Lower(b)
  {
  }

  /** Joining already lower-case tokens gives a lower-case text. */
  lemma {:induction false} LowerJoinSpace(ws: seq<string>)
    requires forall k :: 0 <= k < |ws| ==> Lower(ws[k]) == ws[k]
    ensures Lower(JoinSpace(ws)) == JoinSpace(ws)
  {
    if |ws| > 1 {
      LowerAroundSpace(ws[0], JoinSpace(ws[1..]));
      LowerJoinSpace(ws[1..]);
    }
  }

  /** `needle in text` for strings (the empty needle occurs everywhere). */
  predicate Contains(text: string, needle: string)
    decreases |text|
  {
    |needle| <= |text| && (text[..|needle|] == needle || Contains(text[1..], needle))
  }

  /** `needle` occurs in `text` starting at position `i`. */
  predicate OccursAt(text: string, needle: string, i: nat) {
    i + |needle| <= |text| && text[i..i + |needle|] == needle
  }

  /** `Contains` agrees with the positional definition of a substring. */
  lemma {:induction false} ContainsIffOccursAt(text: string, needle: string)
    ensures Contains(text, needle) <==> exists i: nat :: OccursAt(text, needle, i)
    decreases |text|
  {
    var m := |needle|;
    if m > |text| {
    } else if text[..m] == needle {
      assert OccursAt(text, needle, 0);
    } else {
      ContainsIffOccursAt(text[1..], needle);
      if Contains(text, needle) {
        var j: nat :| OccursAt(text[1..], needle, j);
        assert j + 1 + m <= |text|;
        var u, v := text[j + 1..j + 1 + m], text[1..][j..j + m];
        assert forall k :: 0 <= k < m ==> u[k] == v[k];
        assert OccursAt(text, needle, j + 1);
      }
      if exists i: nat :: OccursAt(text, needle, i) {
        var i: nat :| OccursAt(text, needle, i);
        assert i != 0;
        assert text[1..][i - 1..i - 1 + m] == text[i..i + m];
        assert OccursAt(text[1..], needle, i - 1);
      }
    }
  }

  /** A text that has `needle` at position `i` contains it. */
  lemma ContainsAt(text: string, needle: string, i: nat)
    requires OccursAt(text, needle, i)
    ensures Contains(text, needle)
  {
    ContainsIffOccursAt(text, needle);
  }

  /** The number of tokens of `ws` equal to `w`: the entry `Counter(ws)[w]`. */
  function Occurrences(ws: seq<string>, w: string): (n: nat)
    ensures n <= |ws|
  {
    if ws == [] then 0
    else Occurrences(ws[..|ws| - 1], w) + (if ws[|ws| - 1] == w then 1 else 0)
  }

  /**
   * `Counter(ws).most_common(1)[0][1]` for a non-empty `ws`, and 0 for no
   * tokens: the running maximum of the counts, taken token by token.
   */
  function MostCommonCount(ws: seq<string>): nat {
    if ws == [] then 0
    else
      var rest := MostCommonCount(ws[..|ws| - 1]);
      var last := Occurrences(ws, ws[|ws| - 1]);
      if rest < last then last else rest
  }

  /** `MostCommonCount` is the largest token count, and some token attains it. */
  lemma {:induction false} MostCommonCountIsMaximum(ws: seq<string>)
    ensures forall w :: Occurrences(ws, w) <= MostCommonCount(ws)
    ensures ws != [] ==> exists i :: 0 <= i < |ws| && Occurrences(ws, ws[i]) == MostCommonCount(ws)
    ensures MostCommonCount(ws) <= |ws|
  {
    if ws != [] {
      var n := |ws|;
      var p := ws[..n - 1];
      MostCommonCountIsMaximum(p);
      var last := Occurrences(ws, ws[n - 1]);
      forall w
        ensures Occurrences(ws, w) <= MostCommonCount(ws)
      {
        if w != ws[n - 1] {
          assert Occurrences(ws, w) == Occurrences(p, w);
        }
      }
      if MostCommonCount(p) < last {
        assert Occurrences(ws, ws[n - 1]) == MostCommonCount(ws);
      } else {
        assert p != [];
        var i :| 0 <= i < |p| && Occurrences(p, p[i]) == MostCommonCount(p);
        assert ws[i] == p[i];
        assert Occurrences(ws, ws[i]) >= Occurrences(p, p[i]);
      }
    }
  }

  /**
   * Builds the token counts in a map, as `Counter` does, and keeps the
   * largest count seen so far.
   */
  method MostCommonFrequency(words: seq<string>) returns (m: nat)
    ensures m == MostCommonCount(words)
  {
    var counts: map<string, nat> := map[];
    m := 0;
    for i := 0 to |words|
      invariant forall w :: Occurrences(words[..i], w) == (if w in counts then counts[w] else 0)
      invariant m == MostCommonCount(words[..i])
    {
      var w := words[i];
      var c := if w in counts then counts[w] else 0;
      assert words[..i + 1][..i] == words[..i];
      counts := counts[w := c + 1];
      if m < c + 1 {
        m := c + 1;
      }
    }
    assert words[..|words|] == words;
  }
}
