/**
 * Python's str.strip() and str.split() with no separator, as get_features
 * applies them to every input line (and the training dataset to every line
 * of the label file): runs of whitespace separate words, and whitespace at
 * either end yields no empty word.
 */
module Words {

  /** Python's whitespace: the characters str.isspace() accepts. */
  predicate IsSpace(c: char)
  {
    || ('\t' <= c <= '\r')             // tab, line feed, vertical tab, form feed, carriage return
    || ('\U{1c}' <= c <= ' ')          // the four ASCII information separators and space
    || c == '\U{85}' || c == '\U{a0}' || c == '\U{1680}'
    || ('\U{2000}' <= c <= '\U{200a}')
    || c == '\U{2028}' || c == '\U{2029}' || c == '\U{202f}' || c == '\U{205f}' || c == '\U{3000}'
  }

  predicate NoSpace(s: string)
  {
    forall k :: 0 <= k < |s| ==> !IsSpace(s[k])
  }

  /** What str.split() can return: non-empty words without whitespace. */
  predicate IsWord(w: string)
  {
    |w| > 0 && NoSpace(w)
  }

  predicate AllSpace(s: string)
  {
    forall k :: 0 <= k < |s| ==> IsSpace(s[k])
  }

  /** seps[0] + words[0] + seps[1] + ... + words[n-1] + seps[n]. */
  function Interleave(seps: seq<string>, words: seq<string>): string
    requires |seps| == |words| + 1
    decreases |words|
  {
    if words == [] then seps[0]
    else seps[0] + words[0] + Interleave(seps[1..], words[1..])
  }

  /**
   * Separators for n words: whitespace runs, possibly empty at either end,
   * non-empty between two words.
   */
  predicate Separators(seps: seq<string>, n: int)
  {
    && |seps| == n + 1
    && (forall i :: 0 <= i < |seps| ==> AllSpace(seps[i]))
    && (forall i :: 0 < i < n ==> |seps[i]| > 0)
  }

  /** r is the slice s[a..b] with only whitespace outside it. */
  ghost predicate TrimOf(s: string, r: string, a: int, b: int)
  {
    0 <= a <= b <= |s| && r == s[a..b] && AllSpace(s[..a]) && AllSpace(s[b..])
  }

  /**
   * The words of `s`, where `cur` is the part of a word already read (the
   * scan of str.split() from left to right).
   */
  function SplitFrom(s: string, cur: string): (words: seq<string>)
    requires NoSpace(cur)
    ensures forall k :: 0 <= k < |words| ==> IsWord(words[k])
    decreases |s|
  {
    if s == [] then
      (if cur == [] then [] else [cur])
    else if IsSpace(s[0]) then
      (if cur == [] then [] else [cur]) + SplitFrom(s[1..], [])
    else
      SplitFrom(s[1..], cur + [s[0]])
  }

  /**
   * str.split() with no separator: the line is its words with whitespace
   * runs between them (and possibly around them). SplitSeparated shows that
   * this determines the words.
   */
  function Split(s: string): (words: seq<string>)
    ensures forall k :: 0 <= k < |words| ==> IsWord(words[k])
    ensures exists seps :: Separators(seps, |words|) && Interleave(seps, words) == s
  {
    SplitFromWhole(s);
    SplitFrom(s, [])
  }

  /** str.strip() with no argument: whitespace removed from both ends. */
  function Strip(s: string): (r: string)
    ensures |r| <= |s|
    ensures r == [] || (!IsSpace(r[0]) && !IsSpace(r[|r| - 1]))
    ensures exists a, b :: TrimOf(s, r, a, b)
    decreases |s|
  {
    if s == [] || (!IsSpace(s[0]) && !IsSpace(s[|s| - 1])) then
      TrimWhole(s);
      s
    else if IsSpace(s[0]) then
      var r := Strip(s[1..]);
      TrimFrontSome(s, s[1..], r);
      r
    else
      var r := Strip(s[..|s| - 1]);
      TrimBackSome(s, s[..|s| - 1], r);
      r
  }

  /** query.strip().split(): the words of one line. */
  function LineWords(line: string): (words: seq<string>)
    ensures forall k :: 0 <= k < |words| ==> IsWord(words[k])
    ensures exists seps :: Separators(seps, |words|) && Interleave(seps, words) == line
  {
    var t := Strip(line);
    var words := Split(t);
    WrapSeparators(line, t, words);
    words
  }

  /** The words of every line. */
  function Sentences(lines: seq<string>): (queries: seq<seq<string>>)
    ensures |queries| == |lines|
    ensures forall i :: 0 <= i < |lines| ==> queries[i] == LineWords(lines[i])
  {
    seq(|lines|, i requires 0 <= i < |lines| => LineWords(lines[i]))
  }

  // ---------------------------------------------------------------------------
  // Properties
  // ---------------------------------------------------------------------------

  /** A run of word characters extends the word being read. */
  lemma {:induction false} SplitFromWordChars(w: string, rest: string, cur: string)
    requires NoSpace(w) && NoSpace(cur)
    ensures SplitFrom(w + rest, cur) == SplitFrom(rest, cur + w)
    decreases |w|
  {
    if w == [] {
      assert w + rest == rest;
      assert cur + w == cur;
    } else {
      assert (w + rest)[1..] == w[1..] + rest;
      assert (w + rest)[0] == w[0];
      assert cur + [w[0]] + w[1..] == cur + w;
      SplitFromWordChars(w[1..], rest, cur + [w[0]]);
    }
  }

  /** A run of whitespace ends the word being read. */
  lemma {:induction false} SplitFromSpaceRun(sp: string, rest: string, cur: string)
    requires AllSpace(sp) && |sp| > 0 && NoSpace(cur)
    ensures SplitFrom(sp + rest, cur) == (if cur == [] then [] else [cur]) + SplitFrom(rest, [])
    decreases |sp|
  {
    assert (sp + rest)[0] == sp[0];
    assert (sp + rest)[1..] == sp[1..] + rest;
    if |sp| > 1 {
      SplitFromSpaceRun(sp[1..], rest, []);
    } else {
      assert sp[1..] + rest == rest;
    }
  }

  /**
   * str.split() returns exactly the words of any string made of words with
   * whitespace runs around and between them: its words are the maximal
   * whitespace-free runs of the string.
   */
  lemma SplitSeparated(seps: seq<string>, words: seq<string>)
    requires Separators(seps, |words|)
    requires forall k :: 0 <= k < |words| ==> IsWord(words[k])
    ensures Split(Interleave(seps, words)) == words
  {
    SplitFromSeparated(seps, words);
  }

  lemma {:induction false} SplitFromSeparated(seps: seq<string>, words: seq<string>)
    requires Separators(seps, |words|)
    requires forall k :: 0 <= k < |words| ==> IsWord(words[k])
    ensures SplitFrom(Interleave(seps, words), []) == words
    decreases |words|
  {
    if words == [] {
      SplitFromSpaces(seps[0], []);
    } else {
      var w := words[0];
      var rest := Interleave(seps[1..], words[1..]);
      assert Interleave(seps, words) == seps[0] + (w + rest);
      SplitFromLeadingSpaces(seps[0], w + rest);
      SplitFromWordChars(w, rest, []);
      assert [] + w == w;
      if |words| == 1 {
        SplitFromSpaces(seps[1], w);
      } else {
        var seps' := [[]] + seps[2..];
        InterleaveShift(seps, words);
        SplitFromSpaceRun(seps[1], Interleave(seps', words[1..]), w);
        SeparatorsShift(seps, |words|);
        SplitFromSeparated(seps', words[1..]);
        assert words == [w] + words[1..];
      }
    }
  }

  /** A trailing whitespace run ends the word being read and adds nothing more. */
  lemma SplitFromSpaces(sp: string, cur: string)
    requires AllSpace(sp) && NoSpace(cur)
    ensures SplitFrom(sp, cur) == if cur == [] then [] else [cur]
  {
    if |sp| > 0 {
      SplitFromSpaceRun(sp, [], cur);
      assert sp + [] == sp;
    }
  }

  /** Leading whitespace adds no word. */
  lemma SplitFromLeadingSpaces(sp: string, rest: string)
    requires AllSpace(sp)
    ensures SplitFrom(sp + rest, []) == SplitFrom(rest, [])
  {
    if |sp| > 0 {
      SplitFromSpaceRun(sp, rest, []);
    } else {
      assert sp + rest == rest;
    }
  }

  /** Peeling the separator before the second word off an interleaving. */
  lemma InterleaveShift(seps: seq<string>, words: seq<string>)
    requires |seps| == |words| + 1 && |words| >= 2
    ensures Interleave(seps[1..], words[1..]) == seps[1] + Interleave([[]] + seps[2..], words[1..])
  {
    var seps' := [[]] + seps[2..];
    assert seps[1..][1..] == seps[2..] == seps'[1..];
    assert Interleave(seps', words[1..]) == [] + words[1] + Interleave(seps[2..], words[2..]);
  }

  lemma SeparatorsShift(seps: seq<string>, n: int)
    requires Separators(seps, n) && n >= 2
    ensures Separators([[]] + seps[2..], n - 1)
  {
    var seps' := [[]] + seps[2..];
    assert forall i :: 0 < i < |seps'| ==> seps'[i] == seps[i + 1];
  }

  /** Every line is the words the scan finds, interleaved with whitespace runs. */
  lemma SplitFromWhole(s: string)
    ensures exists seps :: Separators(seps, |SplitFrom(s, [])|) && Interleave(seps, SplitFrom(s, [])) == s
  {
    SplitFromDecomposes(s, []);
    var seps :| SplitFromParts(s, [], seps);
    assert [] + s == s;
    assert Separators(seps, |SplitFrom(s, [])|) && Interleave(seps, SplitFrom(s, [])) == s;
  }

  /** cur + s is the words SplitFrom(s, cur) finds, interleaved with seps. */
  ghost predicate SplitFromParts(s: string, cur: string, seps: seq<string>)
    requires NoSpace(cur)
  {
    var words := SplitFrom(s, cur);
    && Separators(seps, |words|)
    && Interleave(seps, words) == cur + s
    && (cur != [] ==> seps[0] == [])
  }

  lemma {:induction false} SplitFromDecomposes(s: string, cur: string)
    requires NoSpace(cur)
    ensures exists seps :: SplitFromParts(s, cur, seps)
    decreases |s|
  {
    if s == [] {
      PartsOfEmpty(cur);
    } else if IsSpace(s[0]) {
      SplitFromDecomposes(s[1..], []);
      var seps1 :| SplitFromParts(s[1..], [], seps1);
      if cur == [] {
        PartsAfterSpace(s, seps1);
      } else {
        PartsEndingWord(s, cur, seps1);
      }
    } else {
      SplitFromDecomposes(s[1..], cur + [s[0]]);
      var seps :| SplitFromParts(s[1..], cur + [s[0]], seps);
      PartsInWord(s, cur, seps);
    }
  }

  lemma PartsOfEmpty(cur: string)
    requires NoSpace(cur)
    ensures SplitFromParts([], cur, if cur == [] then [[]] else [[], []])
  {
    assert cur + [] == cur;
  }

  /** A space with no word pending joins the first separator. */
  lemma PartsAfterSpace(s: string, seps1: seq<string>)
    requires |s| > 0 && IsSpace(s[0]) && SplitFromParts(s[1..], [], seps1)
    ensures SplitFromParts(s, [], [[s[0]] + seps1[0]] + seps1[1..])
  {
    var words := SplitFrom(s[1..], []);
    var seps := [[s[0]] + seps1[0]] + seps1[1..];
    assert SplitFrom(s, []) == words by {
      assert SplitFrom(s, []) == [] + words;
    }
    assert Separators(seps, |words|) by {
      assert AllSpace(seps[0]);
      assert forall i :: 0 < i < |seps| ==> seps[i] == seps1[i];
    }
    assert Interleave(seps, words) == s by {
      InterleavePrepend([s[0]], seps1, words);
      assert Interleave(seps1, words) == s[1..];
      assert [s[0]] + s[1..] == s;
    }
    assert [] + s == s;
  }

  /** A space after a word ends it and starts the next separator. */
  lemma PartsEndingWord(s: string, cur: string, seps1: seq<string>)
    requires |s| > 0 && IsSpace(s[0]) && NoSpace(cur) && cur != [] && SplitFromParts(s[1..], [], seps1)
    ensures SplitFromParts(s, cur, [[], [s[0]] + seps1[0]] + seps1[1..])
  {
    var words1 := SplitFrom(s[1..], []);
    assert SplitFrom(s, cur) == [cur] + words1;
    SeparatorsAfterWord(s[0], seps1, |words1|);
    InterleaveAfterWord(cur, s[0], seps1, words1);
    assert [] + s[1..] == s[1..];
    assert cur + ([s[0]] + s[1..]) == cur + s;
  }

  lemma SeparatorsAfterWord(c: char, seps1: seq<string>, n: nat)
    requires IsSpace(c) && Separators(seps1, n)
    ensures Separators([[], [c] + seps1[0]] + seps1[1..], n + 1)
  {
    var seps := [[], [c] + seps1[0]] + seps1[1..];
    assert forall i :: 1 < i < |seps| ==> seps[i] == seps1[i - 1];
  }

  lemma InterleaveAfterWord(cur: string, c: char, seps1: seq<string>, words1: seq<string>)
    requires |seps1| == |words1| + 1
    ensures Interleave([[], [c] + seps1[0]] + seps1[1..], [cur] + words1) == cur + ([c] + Interleave(seps1, words1))
  {
    var seps := [[], [c] + seps1[0]] + seps1[1..];
    var words := [cur] + words1;
    assert seps[0] == [] && seps[1..] == [[c] + seps1[0]] + seps1[1..];
    assert words[0] == cur && words[1..] == words1;
    calc {
      Interleave(seps, words);
      [] + cur + Interleave(seps[1..], words1);
      { InterleavePrepend([c], seps1, words1); }
      [] + cur + ([c] + Interleave(seps1, words1));
    }
    assert [] + cur == cur;
  }

  /** A word character extends the pending word. */
  lemma PartsInWord(s: string, cur: string, seps: seq<string>)
    requires |s| > 0 && !IsSpace(s[0]) && NoSpace(cur) && SplitFromParts(s[1..], cur + [s[0]], seps)
    ensures SplitFromParts(s, cur, seps)
  {
    assert cur + [s[0]] + s[1..] == cur + s;
  }

  /** Text before the first separator comes first in the interleaving. */
  lemma InterleavePrepend(x: string, seps: seq<string>, words: seq<string>)
    requires |seps| == |words| + 1
    ensures Interleave([x + seps[0]] + seps[1..], words) == x + Interleave(seps, words)
  {
    var seps' := [x + seps[0]] + seps[1..];
    assert seps'[1..] == seps[1..];
  }

  lemma TrimWhole(s: string)
    ensures exists a, b :: TrimOf(s, s, a, b)
  {
    assert TrimOf(s, s, 0, |s|);
  }

  lemma TrimFrontSome(s: string, tail: string, r: string)
    requires |s| > 0 && IsSpace(s[0]) && tail == s[1..] && exists a, b :: TrimOf(tail, r, a, b)
    ensures exists a, b :: TrimOf(s, r, a, b)
  {
    var a, b :| TrimOf(tail, r, a, b);
    TrimFront(s, r, a, b);
  }

  lemma TrimBackSome(s: string, init: string, r: string)
    requires |s| > 0 && IsSpace(s[|s| - 1]) && init == s[..|s| - 1] && exists a, b :: TrimOf(init, r, a, b)
    ensures exists a, b :: TrimOf(s, r, a, b)
  {
    var a, b :| TrimOf(init, r, a, b);
    TrimBack(s, r, a, b);
  }

  lemma TrimFront(s: string, r: string, a: int, b: int)
    requires |s| > 0 && IsSpace(s[0]) && TrimOf(s[1..], r, a, b)
    ensures TrimOf(s, r, a + 1, b + 1)
  {
    assert s[1..][a..b] == s[a + 1..b + 1];
    assert s[..a + 1] == [s[0]] + s[1..][..a];
    assert s[b + 1..] == s[1..][b..];
  }

  lemma TrimBack(s: string, r: string, a: int, b: int)
    requires |s| > 0 && IsSpace(s[|s| - 1]) && TrimOf(s[..|s| - 1], r, a, b)
    ensures TrimOf(s, r, a, b)
  {
    var init := s[..|s| - 1];
    assert init[a..b] == s[a..b];
    assert s[..a] == init[..a];
    assert s[b..] == init[b..] + [s[|s| - 1]];
  }

  /** Stripping before splitting changes nothing: str.split() ignores whitespace at the ends. */
  lemma SplitStrip(s: string)
    ensures LineWords(s) == Split(s)
  {
    var words := LineWords(s);
    var seps :| Separators(seps, |words|) && Interleave(seps, words) == s;
    SplitSeparated(seps, words);
  }

  /**
   * The words of a line are determined by the line: any arrangement of words
   * with whitespace separators between and around them that spells the line
   * is the one LineWords returns.
   */
  lemma LineWordsExactly(line: string, seps: seq<string>, words: seq<string>)
    requires Separators(seps, |words|) && forall k :: 0 <= k < |words| ==> IsWord(words[k])
    requires Interleave(seps, words) == line
    ensures LineWords(line) == words
  {
    SplitStrip(line);
    SplitSeparated(seps, words);
  }

  /** Whitespace stripped from the ends of a line joins the outer separators. */
  lemma WrapSeparators(line: string, t: string, words: seq<string>)
    requires exists a, b :: TrimOf(line, t, a, b)
    requires exists seps :: Separators(seps, |words|) && Interleave(seps, words) == t
    ensures exists seps :: Separators(seps, |words|) && Interleave(seps, words) == line
  {
    var a, b :| TrimOf(line, t, a, b);
    var seps :| Separators(seps, |words|) && Interleave(seps, words) == t;
    TrimParts(line, t, a, b);
    var seps2 := WidenSeparators(seps, words, line[..a], line[b..]);
  }

  lemma TrimParts(s: string, r: string, a: int, b: int)
    requires TrimOf(s, r, a, b)
    ensures s == s[..a] + r + s[b..]
  {
    assert s[..b] == s[..a] + r;
    assert s == s[..b] + s[b..];
  }

  /** Whitespace added before the first and after the last separator keeps them separators. */
  lemma WidenSeparators(seps: seq<string>, words: seq<string>, pre: string, post: string)
    returns (seps2: seq<string>)
    requires Separators(seps, |words|) && AllSpace(pre) && AllSpace(post)
    ensures Separators(seps2, |words|) && Interleave(seps2, words) == pre + Interleave(seps, words) + post
  {
    var seps1 := [pre + seps[0]] + seps[1..];
    InterleavePrepend(pre, seps, words);
    assert Separators(seps1, |words|) by {
      assert forall i :: 0 < i < |seps1| ==> seps1[i] == seps[i];
    }
    var n := |seps1| - 1;
    seps2 := seps1[..n] + [seps1[n] + post];
    InterleaveAppend(seps1, words, post);
    assert Separators(seps2, |words|) by {
      assert forall i :: 0 <= i < n ==> seps2[i] == seps1[i];
    }
  }

  lemma {:induction false} InterleaveAppend(seps: seq<string>, words: seq<string>, x: string)
    requires |seps| == |words| + 1
    ensures Interleave(seps[..|seps| - 1] + [seps[|seps| - 1] + x], words) == Interleave(seps, words) + x
    decreases |words|
  {
    var m := |seps| - 1;
    var seps' := seps[..m] + [seps[m] + x];
    if words == [] {
      assert seps' == [seps[0] + x];
    } else {
      var tail := seps[1..];
      var tail' := tail[..m - 1] + [tail[m - 1] + x];
      assert seps'[1..] == tail';
      assert seps'[0] == seps[0];
      calc {
        Interleave(seps', words);
        seps[0] + words[0] + Interleave(tail', words[1..]);
        { InterleaveAppend(tail, words[1..], x); }
        seps[0] + words[0] + (Interleave(tail, words[1..]) + x);
        (seps[0] + words[0] + Interleave(tail, words[1..])) + x;
      }
    }
  }

  /** A line yields no words exactly when it is all whitespace. */
  lemma {:induction false} SplitEmpty(s: string, cur: string)
    requires NoSpace(cur)
    ensures SplitFrom(s, cur) == [] <==> cur == [] && forall k :: 0 <= k < |s| ==> IsSpace(s[k])
    decreases |s|
  {
    if s != [] {
      if IsSpace(s[0]) {
        SplitEmpty(s[1..], []);
      } else {
        SplitEmpty(s[1..], cur + [s[0]]);
      }
      assert forall k :: 1 <= k < |s| ==> s[k] == s[1..][k - 1];
    }
  }
}
