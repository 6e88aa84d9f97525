/**
 * Where the training dataset caches its features: a file named after the
 * text file, the tokenizer and max_seq_length, in the text file's directory.
 * The path operations are those of Python's posixpath (basename, dirname,
 * join) and the numbers are written as str() writes an int.
 */
module CachePaths {
  import opened Tokenization

  // ---------------------------------------------------------------------------
  // posixpath
  // ---------------------------------------------------------------------------

  /** p.rfind('/'): the index of the last slash, or -1 when there is none. */
  function LastSlash(p: string): (i: int)
    ensures -1 <= i < |p|
    ensures i >= 0 ==> p[i] == '/'
    ensures forall k :: i < k < |p| ==> p[k] != '/'
    decreases |p|
  {
    if p == [] then -1
    else if p[|p| - 1] == '/' then |p| - 1
    else LastSlash(p[..|p| - 1])
  }

  /** The part of p up to and including its last slash. */
  function Head(p: string): string
  {
    p[..LastSlash(p) + 1]
  }

  /** os.path.basename: what follows the last slash. */
  function Basename(p: string): (b: string)
    ensures p == Head(p) + b
    ensures forall k :: 0 <= k < |b| ==> b[k] != '/'
  {
    var i := LastSlash(p) + 1;
    assert p == p[..i] + p[i..];
    p[i..]
  }

  predicate AllSlashes(s: string)
  {
    forall k :: 0 <= k < |s| ==> s[k] == '/'
  }

  /** s.rstrip('/'). */
  function RStripSlashes(s: string): (r: string)
    ensures |r| <= |s| && r == s[..|r|]
    ensures r == [] || r[|r| - 1] != '/'
    ensures forall k :: |r| <= k < |s| ==> s[k] == '/'
    decreases |s|
  {
    if s == [] || s[|s| - 1] != '/' then s
    else RStripSlashes(s[..|s| - 1])
  }

  /**
   * What os.path.dirname can return: the empty string, a run of slashes (the
   * root), or a path that does not end with a slash.
   */
  predicate IsDirname(d: string)
  {
    d == [] || AllSlashes(d) || d[|d| - 1] != '/'
  }

  /**
   * os.path.dirname: the head up to the last slash, with trailing slashes
   * removed unless the head is nothing but slashes. The path is the dirname,
   * then a run of slashes, then the basename; the run is empty exactly when
   * the dirname is empty or the root.
   */
  function Dirname(p: string): (d: string)
    ensures IsDirname(d)
    ensures |d| <= |p| && d == p[..|d|]
    ensures exists run :: AllSlashes(run) && p == d + run + Basename(p) && (AllSlashes(d) <==> run == [])
  {
    var head := Head(p);
    var d := if head != [] && !AllSlashes(head) then RStripSlashes(head) else head;
    var run := head[|d|..];
    assert head == d + run;
    assert head != [] ==> head[|head| - 1] == '/';
    assert AllSlashes(d) <==> run == [];
    assert AllSlashes(run) && p == d + run + Basename(p);
    d
  }

  /** a, with a slash added unless it is empty or already ends with one. */
  function WithSlash(a: string): string
  {
    if a == [] || a[|a| - 1] == '/' then a else a + "/"
  }

  /** os.path.join of two components: an absolute b replaces a. */
  function Join(a: string, b: string): string
  {
    if |b| > 0 && b[0] == '/' then b else WithSlash(a) + b
  }

  /**
   * The directory a Join of a dirname and a slash-free name lands in: the
   * dirname itself, and the name is the last component.
   */
  lemma JoinDirname(a: string, b: string)
    requires IsDirname(a)
    requires |b| > 0 && forall k :: 0 <= k < |b| ==> b[k] != '/'
    ensures Dirname(Join(a, b)) == a
    ensures Basename(Join(a, b)) == b
  {
    var p := Join(a, b);
    if a == [] {
      assert LastSlash(b) == -1;
    } else if a[|a| - 1] == '/' {
      LastSlashAppend(a, b);
      assert Head(p) == a;
    } else {
      LastSlashAppend(a + "/", b);
      assert Head(p) == a + "/";
      assert !AllSlashes(a + "/") by { assert (a + "/")[|a| - 1] != '/'; }
      assert (a + "/")[..|a|] == a;
    }
  }

  /** Appending a slash-free name after a slash keeps that slash the last one. */
  lemma {:induction false} LastSlashAppend(a: string, b: string)
    requires |a| > 0 && a[|a| - 1] == '/'
    requires forall k :: 0 <= k < |b| ==> b[k] != '/'
    ensures LastSlash(a + b) == |a| - 1
    decreases |b|
  {
    if b == [] {
      assert a + b == a;
    } else {
      assert (a + b)[..|a + b| - 1] == a + b[..|b| - 1];
      LastSlashAppend(a, b[..|b| - 1]);
    }
  }

  /** str.endswith. */
  predicate EndsWith(s: string, suffix: string)
  {
    |suffix| <= |s| && s[|s| - |suffix|..] == suffix
  }

  // ---------------------------------------------------------------------------
  // str() of an int, and its inverse
  // ---------------------------------------------------------------------------

  predicate IsDigit(c: char)
  {
    '0' <= c <= '9'
  }

  predicate AllDigits(s: string)
  {
    forall k :: 0 <= k < |s| ==> IsDigit(s[k])
  }

  function DigitChar(d: int): (c: char)
    requires 0 <= d < 10
    ensures IsDigit(c)
  {
    "0123456789"[d]
  }

  function DigitValue(c: char): (d: int)
    requires IsDigit(c)
    ensures 0 <= d < 10
  {
    c as int - '0' as int
  }

  /** The decimal digits of n, without leading zeros. */
  function NatToString(n: nat): (s: string)
    ensures |s| > 0 && AllDigits(s)
    ensures |s| > 1 ==> s[0] != '0'
    decreases n
  {
    if n < 10 then [DigitChar(n)] else NatToString(n / 10) + [DigitChar(n % 10)]
  }

  /** str(i) for an int: an optional minus sign, then the digits. */
  function IntToString(i: int): (s: string)
    ensures |s| > 0 && forall k :: 0 <= k < |s| ==> s[k] != '/' && s[k] != '_'
  {
    if i < 0 then "-" + NatToString(-i) else NatToString(i)
  }

  /** int(s) for a string of digits. */
  function ParseNat(s: string): nat
    requires AllDigits(s)
    decreases |s|
  {
    if s == [] then 0 else 10 * ParseNat(s[..|s| - 1]) + DigitValue(s[|s| - 1])
  }

  /** int(s) for what IntToString writes. */
  function ParseInt(s: string): int
    requires |s| > 0
    requires AllDigits(if s[0] == '-' then s[1..] else s)
  {
    if s[0] == '-' then -(ParseNat(s[1..]) as int) else ParseNat(s)
  }

  lemma {:induction false} ParseNatToString(n: nat)
    ensures ParseNat(NatToString(n)) == n
    decreases n
  {
    if n >= 10 {
      var s := NatToString(n);
      ParseNatToString(n / 10);
      assert s[..|s| - 1] == NatToString(n / 10);
      assert "0123456789"[n % 10] as int - '0' as int == n % 10;
    } else {
      assert "0123456789"[n] as int - '0' as int == n;
    }
  }

  /** int(str(i)) == i: str() of an int loses nothing. */
  lemma ParseIntToString(i: int)
    ensures var s := IntToString(i);
      && AllDigits(if s[0] == '-' then s[1..] else s)
      && ParseInt(s) == i
  {
    if i < 0 {
      ParseNatToString(-i);
      assert ("-" + NatToString(-i))[1..] == NatToString(-i);
    } else {
      ParseNatToString(i);
    }
  }

  // ---------------------------------------------------------------------------
  // The cache key
  // ---------------------------------------------------------------------------

  /** "cached_{filename}_{tokenizer type}_{max_seq_length}_{vocab_size}". */
  function CachedName(filename: string, typeName: string, maxSeqLength: int, vocabSize: int): (name: string)
    ensures |name| >= 7 && name[..7] == "cached_"
    ensures var suffix := "_" + IntToString(maxSeqLength) + "_" + IntToString(vocabSize);
      |suffix| <= |name| && name[|name| - |suffix|..] == suffix
  {
    var head := "cached_" + filename + "_" + typeName;
    var suffix := "_" + IntToString(maxSeqLength) + "_" + IntToString(vocabSize);
    assert (head + suffix)[..7] == head[..7] == "cached_";
    assert (head + suffix)[|head|..] == suffix;
    head + suffix
  }

  /** features_pkl: the cached name, joined to the text file's directory. */
  function CacheKey(textFile: string, tok: Tokenizer, maxSeqLength: int): string
  {
    Join(Dirname(textFile),
         CachedName(Basename(textFile), tok.typeName, maxSeqLength, VocabSize(tok)))
  }

  /**
   * The cache file sits next to the text file, and its name is the cached
   * name of the text file's name (the tokenizer's type name holding no slash).
   */
  lemma CacheKeyLocation(textFile: string, tok: Tokenizer, maxSeqLength: int)
    requires NoSlash(tok.typeName)
    ensures Dirname(CacheKey(textFile, tok, maxSeqLength)) == Dirname(textFile)
    ensures Basename(CacheKey(textFile, tok, maxSeqLength))
      == CachedName(Basename(textFile), tok.typeName, maxSeqLength, VocabSize(tok))
  {
    NameLocation(Dirname(textFile), Basename(textFile), tok.typeName, maxSeqLength, VocabSize(tok));
  }

  predicate NoSlash(s: string)
  {
    forall k :: 0 <= k < |s| ==> s[k] != '/'
  }

  lemma NoSlashAppend(a: string, b: string)
    requires NoSlash(a) && NoSlash(b)
    ensures NoSlash(a + b)
  {
    assert forall k :: 0 <= k < |a| ==> (a + b)[k] == a[k];
    assert forall k :: |a| <= k < |a + b| ==> (a + b)[k] == b[k - |a|];
  }

  /** A cached name made of slash-free parts is one path component. */
  lemma NoSlashName(f: string, t: string, m: string, v: string)
    requires NoSlash(f) && NoSlash(t) && NoSlash(m) && NoSlash(v)
    ensures NoSlash("cached_" + f + "_" + t + "_" + m + "_" + v)
  {
    assert NoSlash("cached_") && NoSlash("_");
    NoSlashAppend("cached_", f);
    NoSlashAppend("cached_" + f, "_");
    NoSlashAppend("cached_" + f + "_", t);
    NoSlashAppend("cached_" + f + "_" + t, "_");
    NoSlashAppend("cached_" + f + "_" + t + "_", m);
    NoSlashAppend("cached_" + f + "_" + t + "_" + m, "_");
    NoSlashAppend("cached_" + f + "_" + t + "_" + m + "_", v);
  }

  /** CachedName spelled out left to right. */
  lemma CachedNameParts(f: string, t: string, ms: int, vs: int)
    ensures CachedName(f, t, ms, vs) == "cached_" + f + "_" + t + "_" + IntToString(ms) + "_" + IntToString(vs)
  {
  }

  /** Joining a dirname with a cached name of slash-free parts gives back both. */
  lemma NameLocation(d: string, f: string, t: string, ms: int, vs: int)
    requires IsDirname(d) && NoSlash(f) && NoSlash(t)
    ensures Dirname(Join(d, CachedName(f, t, ms, vs))) == d
    ensures Basename(Join(d, CachedName(f, t, ms, vs))) == CachedName(f, t, ms, vs)
  {
    var m, v := IntToString(ms), IntToString(vs);
    CachedNameParts(f, t, ms, vs);
    NoSlashName(f, t, m, v);
    JoinDirname(d, CachedName(f, t, ms, vs));
  }

  /** Splitting at the first underscore: names without one are recovered. */
  lemma SplitAtUnderscore(a: string, b: string, c: string, d: string)
    requires forall k :: 0 <= k < |a| ==> a[k] != '_'
    requires forall k :: 0 <= k < |c| ==> c[k] != '_'
    requires a + "_" + b == c + "_" + d
    ensures a == c && b == d
  {
    var s := a + "_" + b;
    var s' := c + "_" + d;
    assert |a| == |c| by {
      assert s[|a|] == '_' && s'[|c|] == '_';
      assert forall k :: 0 <= k < |a| ==> s[k] == a[k];
      assert forall k :: 0 <= k < |c| ==> s'[k] == c[k];
    }
    assert a == s[..|a|];
    assert c == s[..|c|];
    assert b == s[|a| + 1..];
    assert d == (c + "_" + d)[|c| + 1..];
  }

  /** The cache key of a text file: a prefix fixed by the file and tokenizer type, then the two numbers. */
  function KeyPrefix(textFile: string, typeName: string): string
  {
    WithSlash(Dirname(textFile)) + ("cached_" + Basename(textFile) + "_" + typeName + "_")
  }

  lemma CacheKeyShape(textFile: string, tok: Tokenizer, maxSeqLength: int)
    ensures CacheKey(textFile, tok, maxSeqLength)
      == KeyPrefix(textFile, tok.typeName) + (IntToString(maxSeqLength) + "_" + IntToString(VocabSize(tok)))
  {
    NameShape(Dirname(textFile), Basename(textFile), tok.typeName, maxSeqLength, VocabSize(tok));
  }

  /** Join of a directory and a cached name: the fixed part, then the two numbers. */
  lemma NameShape(d: string, f: string, t: string, ms: int, vs: int)
    ensures Join(d, CachedName(f, t, ms, vs))
      == WithSlash(d) + ("cached_" + f + "_" + t + "_") + (IntToString(ms) + "_" + IntToString(vs))
  {
    CachedNameParts(f, t, ms, vs);
    KeyParts(d, f, t, IntToString(ms), IntToString(vs));
  }

  lemma KeyParts(d: string, f: string, t: string, m: string, v: string)
    ensures Join(d, "cached_" + f + "_" + t + "_" + m + "_" + v)
      == WithSlash(d) + ("cached_" + f + "_" + t + "_") + (m + "_" + v)
  {
    var name := "cached_" + f + "_" + t + "_" + m + "_" + v;
    assert name[0] == 'c';
    assert name == ("cached_" + f + "_" + t + "_") + (m + "_" + v);
  }

  /**
   * For one text file and tokenizer type, the key tells max_seq_length and
   * vocab_size apart: features made for another length or vocabulary are
   * never read back.
   */
  lemma CacheKeySeparatesSettings(textFile: string, tok1: Tokenizer, tok2: Tokenizer, m1: int, m2: int)
    requires tok1.typeName == tok2.typeName
    requires CacheKey(textFile, tok1, m1) == CacheKey(textFile, tok2, m2)
    ensures m1 == m2 && VocabSize(tok1) == VocabSize(tok2)
  {
    var prefix := KeyPrefix(textFile, tok1.typeName);
    var s1 := IntToString(m1) + "_" + IntToString(VocabSize(tok1));
    var s2 := IntToString(m2) + "_" + IntToString(VocabSize(tok2));
    CacheKeyShape(textFile, tok1, m1);
    CacheKeyShape(textFile, tok2, m2);
    assert s1 == (prefix + s1)[|prefix|..];
    assert s2 == (prefix + s2)[|prefix|..];
    SplitAtUnderscore(IntToString(m1), IntToString(VocabSize(tok1)), IntToString(m2), IntToString(VocabSize(tok2)));
    ParseIntToString(m1);
    ParseIntToString(m2);
    ParseIntToString(VocabSize(tok1));
    ParseIntToString(VocabSize(tok2));
  }
}
