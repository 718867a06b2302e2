/**
 * The few Python string operations the decoder relies on, written out over
 * `seq<char>`: `str.split()` (runs of whitespace), `str.split(sep)` (a single
 * separator character), the substring test `sub in s`, and the slice `s[:-1]`.
 */
module Text {

  /** The characters for which Python's `str.isspace()` holds. */
  predicate IsSpace(c: char)
  {
    var n := c as int;
    (9 <= n <= 13) || (28 <= n <= 32) || n == 0x85 || n == 0xA0 || n == 0x1680
    || (0x2000 <= n <= 0x200A) || n == 0x2028 || n == 0x2029 || n == 0x202F
    || n == 0x205F || n == 0x3000
  }

  predicate NoSpace(w: string)
  {
    forall i :: 0 <= i < |w| ==> !IsSpace(w[i])
  }

  /** Length of the longest whitespace-free prefix of `s`. */
  function WordLen(s: string): (n: nat)
    ensures n <= |s|
    ensures NoSpace(s[..n])
    ensures n == |s| || IsSpace(s[n])
  {
    if s == [] || IsSpace(s[0]) then 0 else 1 + WordLen(s[1..])
  }

  /** Python's `s.split()`: the maximal runs of non-whitespace characters, in order. */
  function Words(s: string): (ws: seq<string>)
    ensures forall w <- ws :: w != [] && NoSpace(w)
    decreases |s|
  {
    if s == [] then []
    else if IsSpace(s[0]) then Words(s[1..])
    else
      var n := WordLen(s);
      [s[..n]] + Words(s[n..])
  }

  lemma {:induction false} WordLenOfWord(w: string, rest: string)
    requires NoSpace(w)
    requires rest == [] || IsSpace(rest[0])
    ensures WordLen(w + rest) == |w|
  {
    if w != [] {
      assert (w + rest)[1..] == w[1..] + rest;
      WordLenOfWord(w[1..], rest);
    }
  }

  /** Splitting on whitespace undoes joining non-empty, whitespace-free words with spaces. */
  lemma {:induction false} WordsOfJoin(ws: seq<string>)
    requires forall w <- ws :: w != [] && NoSpace(w)
    ensures Words(JoinWith(ws, ' ')) == ws
  {
    if ws == [] {
    } else if |ws| == 1 {
      var w := ws[0];
      assert w + [] == w;
      WordLenOfWord(w, []);
      assert w[..|w|] == w && w[|w|..] == [];
    } else {
      var w, rest := ws[0], [' '] + JoinWith(ws[1..], ' ');
      var s := w + rest;
      assert JoinWith(ws, ' ') == s;
      WordLenOfWord(w, rest);
      assert s[..|w|] == w;
      assert s[|w|..] == rest;
      assert rest[1..] == JoinWith(ws[1..], ' ');
      assert forall v <- ws[1..] :: v in ws;
      WordsOfJoin(ws[1..]);
      assert Words(s) == [w] + Words(rest);
    }
  }

  /** A run of whitespace, possibly empty. */
  predicate AllSpace(g: string)
  {
    forall i :: 0 <= i < |g| ==> IsSpace(g[i])
  }

  /** The text `gaps[0] + ws[0] + gaps[1] + ... + ws[n-1] + gaps[n]`. */
  function Spaced(ws: seq<string>, gaps: seq<string>): string
    requires |gaps| == |ws| + 1
  {
    if ws == [] then gaps[0] else gaps[0] + ws[0] + Spaced(ws[1..], gaps[1..])
  }

  /** `str.split()` drops leading whitespace. */
  lemma {:induction false} WordsSkipSpace(g: string, s: string)
    requires AllSpace(g)
    ensures Words(g + s) == Words(s)
    decreases |g|
  {
    if g != [] {
      var t := g + s;
      assert IsSpace(t[0]);
      assert t[1..] == g[1..] + s;
      WordsSkipSpace(g[1..], s);
    } else {
      assert g + s == s;
    }
  }

  /** A spaced text is empty or starts with whitespace when its first gap is non-empty or it has no words. */
  lemma SpacedStart(ws: seq<string>, gaps: seq<string>)
    requires |gaps| == |ws| + 1
    requires AllSpace(gaps[0])
    requires ws != [] ==> gaps[0] != []
    ensures var t := Spaced(ws, gaps); t == [] || IsSpace(t[0])
  {
    if ws != [] {
      assert Spaced(ws, gaps)[0] == gaps[0][0];
    }
  }

  /**
   * `gaps` are the whitespace runs around the words `ws`: one more run than words, every
   * word non-empty and whitespace-free, and every run between two words non-empty.
   */
  predicate WellSpaced(ws: seq<string>, gaps: seq<string>)
  {
    && |gaps| == |ws| + 1
    && (forall w <- ws :: w != [] && NoSpace(w))
    && (forall g <- gaps :: AllSpace(g))
    && (forall i :: 0 < i < |ws| ==> gaps[i] != [])
  }

  /** Splitting on whitespace gives back the words of any text of words and whitespace runs. */
  lemma {:induction false} WordsOfSpaced(ws: seq<string>, gaps: seq<string>)
    requires WellSpaced(ws, gaps)
    ensures Words(Spaced(ws, gaps)) == ws
  {
    if ws == [] {
      WordsSkipSpace(gaps[0], []);
      assert gaps[0] + [] == gaps[0];
    } else {
      var w, rest := ws[0], Spaced(ws[1..], gaps[1..]);
      assert Spaced(ws, gaps) == gaps[0] + (w + rest);
      WordsSkipSpace(gaps[0], w + rest);
      assert gaps[1] in gaps;
      SpacedStart(ws[1..], gaps[1..]);
      WordLenOfWord(w, rest);
      var s := w + rest;
      assert s[..|w|] == w && s[|w|..] == rest;
      assert forall v <- ws[1..] :: v in ws;
      assert forall g <- gaps[1..] :: g in gaps;
      WordsOfSpaced(ws[1..], gaps[1..]);
      assert Words(s) == [w] + Words(rest);
    }
  }

  /** Prepending whitespace to a text of words and runs widens its first run. */
  lemma SpacedPrepend(g: string, ws: seq<string>, gaps: seq<string>)
    requires |gaps| == |ws| + 1
    ensures Spaced(ws, [g + gaps[0]] + gaps[1..]) == g + Spaced(ws, gaps)
  {
    var gaps' := [g + gaps[0]] + gaps[1..];
    if ws != [] {
      assert gaps'[1..] == gaps[1..];
    }
  }

  /** A text of words and runs whose first run is empty starts with its first word. */
  lemma SpacedWordStart(ws: seq<string>, gaps: seq<string>)
    requires WellSpaced(ws, gaps) && ws != [] && gaps[0] == []
    ensures var t := Spaced(ws, gaps); t != [] && !IsSpace(t[0])
  {
    assert ws[0] in ws;
    assert Spaced(ws, gaps)[0] == ws[0][0];
  }

  /** A whitespace character in front of a text of words and runs joins its first run. */
  lemma SpaceThen(c: char, ws: seq<string>, gaps: seq<string>)
    requires IsSpace(c) && WellSpaced(ws, gaps)
    ensures var gaps' := [[c] + gaps[0]] + gaps[1..];
      WellSpaced(ws, gaps') && Spaced(ws, gaps') == [c] + Spaced(ws, gaps)
  {
    var gaps' := [[c] + gaps[0]] + gaps[1..];
    SpacedPrepend([c], ws, gaps);
    assert gaps[0] in gaps;
    assert forall g <- gaps[1..] :: g in gaps;
    assert forall i :: 0 < i < |ws| ==> gaps'[i] == gaps[i];
  }

  /** A word in front of a text of words and runs that starts with a run becomes its first word. */
  lemma WordThen(w: string, ws: seq<string>, gaps: seq<string>)
    requires w != [] && NoSpace(w) && WellSpaced(ws, gaps)
    requires ws != [] ==> gaps[0] != []
    ensures WellSpaced([w] + ws, [[]] + gaps)
    ensures Spaced([w] + ws, [[]] + gaps) == w + Spaced(ws, gaps)
  {
    var ws', gaps' := [w] + ws, [[]] + gaps;
    assert ws'[1..] == ws && gaps'[1..] == gaps;
    assert forall i :: 0 < i < |ws'| ==> gaps'[i] == gaps[i - 1];
  }

  /** `s` is its words `Words(s)` separated by the whitespace runs `gaps`. */
  predicate SpacedAs(s: string, gaps: seq<string>)
  {
    WellSpaced(Words(s), gaps) && Spaced(Words(s), gaps) == s
  }

  /** A leading whitespace character widens the first run of the rest of the text. */
  lemma SpacedAsSpace(s: string, gaps: seq<string>)
    requires s != [] && IsSpace(s[0]) && SpacedAs(s[1..], gaps)
    ensures SpacedAs(s, [[s[0]] + gaps[0]] + gaps[1..])
  {
    SpaceThen(s[0], Words(s[1..]), gaps);
    assert [s[0]] + s[1..] == s;
  }

  /** A leading word comes in front of the rest of the text, after an empty run. */
  lemma SpacedAsWord(s: string, gaps: seq<string>)
    requires s != [] && !IsSpace(s[0]) && SpacedAs(s[WordLen(s)..], gaps)
    ensures SpacedAs(s, [[]] + gaps)
  {
    var n := WordLen(s);
    var w, rest := s[..n], s[n..];
    var ws := Words(rest);
    if ws != [] && gaps[0] == [] {
      SpacedWordStart(ws, gaps);
    }
    WordThen(w, ws, gaps);
    assert s == w + rest;
  }

  /**
   * Every text is its words separated by whitespace runs, so together with `WordsOfSpaced`
   * this fixes `Words` on every input.
   */
  lemma {:induction false} SpacedWords(s: string)
    ensures exists gaps :: SpacedAs(s, gaps)
    decreases |s|
  {
    if s == [] {
      assert Words(s) == [];
      assert SpacedAs(s, [[]]);
    } else if IsSpace(s[0]) {
      SpacedWords(s[1..]);
      var gaps :| SpacedAs(s[1..], gaps);
      SpacedAsSpace(s, gaps);
    } else {
      SpacedWords(s[WordLen(s)..]);
      var gaps :| SpacedAs(s[WordLen(s)..], gaps);
      SpacedAsWord(s, gaps);
    }
  }

  /** Every word of a text occurs in it. */
  lemma {:induction false} WordOccurs(s: string, i: nat)
    requires i < |Words(s)|
    ensures Contains(s, Words(s)[i])
    decreases |s|
  {
    var w := Words(s)[i];
    if IsSpace(s[0]) {
      WordOccurs(s[1..], i);
      OccursInSuffix(s, 1, w);
    } else {
      var n := WordLen(s);
      if i == 0 {
        assert OccursAt(s, w, 0);
      } else {
        WordOccurs(s[n..], i - 1);
        OccursInSuffix(s, n, w);
      }
    }
  }

  /** What occurs in a suffix of a text occurs in the text. */
  lemma OccursInSuffix(s: string, k: nat, w: string)
    requires k <= |s| && Contains(s[k..], w)
    ensures Contains(s, w)
  {
    var o :| OccursAt(s[k..], w, o);
    assert s[k + o..k + o + |w|] == s[k..][o..o + |w|];
    assert OccursAt(s, w, k + o);
  }

  /** Index of the first occurrence of `c` in `s`. */
  function IndexOfChar(s: string, c: char): (i: nat)
    requires c in s
    ensures i < |s| && s[i] == c && c !in s[..i]
  {
    if s[0] == c then 0 else 1 + IndexOfChar(s[1..], c)
  }

  /** Python's `s.split(sep)` for a one-character separator: empty pieces are kept. */
  function SplitOn(s: string, sep: char): (parts: seq<string>)
    ensures |parts| >= 1
    ensures forall p <- parts :: sep !in p
    decreases |s|
  {
    if sep !in s then [s]
    else
      var i := IndexOfChar(s, sep);
      [s[..i]] + SplitOn(s[i + 1..], sep)
  }

  /** Python's `sep.join(parts)`; with a space, the inverse of `Words` on well-formed words. */
  function JoinWith(parts: seq<string>, sep: char): string
  {
    if parts == [] then []
    else if |parts| == 1 then parts[0]
    else parts[0] + [sep] + JoinWith(parts[1..], sep)
  }

  lemma Reassemble(s: string, i: nat)
    requires i < |s|
    ensures s == s[..i] + [s[i]] + s[i + 1..]
  {
  }

  lemma JoinWithCons(head: string, tail: seq<string>, sep: char)
    requires tail != []
    ensures JoinWith([head] + tail, sep) == head + [sep] + JoinWith(tail, sep)
  {
  }

  /** Splitting loses nothing: joining the pieces with the separator gives back the text. */
  lemma {:induction false} JoinSplitOn(s: string, sep: char)
    ensures JoinWith(SplitOn(s, sep), sep) == s
    decreases |s|
  {
    if sep in s {
      var i := IndexOfChar(s, sep);
      var head, rest := s[..i], s[i + 1..];
      var tail := SplitOn(rest, sep);
      assert SplitOn(s, sep) == [head] + tail;
      JoinWithCons(head, tail, sep);
      JoinSplitOn(rest, sep);
      Reassemble(s, i);
    }
  }

  /** `sub` occurs in `s` starting at index `i`. */
  predicate OccursAt(s: string, sub: string, i: int)
  {
    0 <= i && i + |sub| <= |s| && s[i..i + |sub|] == sub
  }

  /** Python's `sub in s`. */
  function Contains(s: string, sub: string): (b: bool)
    ensures b <==> exists i :: OccursAt(s, sub, i)
    decreases |s|
  {
    if |sub| > |s| then false
    else if s[..|sub|] == sub then
      assert OccursAt(s, sub, 0);
      true
    else
      var b := Contains(s[1..], sub);
      assert forall i :: OccursAt(s[1..], sub, i) ==> OccursAt(s, sub, i + 1);
      assert forall i :: OccursAt(s, sub, i) ==> i >= 1 && OccursAt(s[1..], sub, i - 1);
      b
  }

  /** Python's `s[:-1]`: everything but the last character; empty stays empty. */
  function DropLast(s: string): (r: string)
    ensures |s| > 0 ==> s == r + [s[|s| - 1]]
    ensures |s| == 0 ==> r == []
  {
    if |s| == 0 then [] else s[..|s| - 1]
  }
}
