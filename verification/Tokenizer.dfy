/** Splitting a string of meta data in place: separators are replaced by zeros, so that the fields can
    be read as C strings. */
module Tokenizer {
  const SEP := '\U{1d}'
  const NUL := '\0'

  /** The first place from `k` on at which `c` stands, or the end of the string. */
  function Find(s: string, k: nat, c: char): (e: nat)
    requires k <= |s|
    ensures k <= e <= |s| && (e < |s| ==> s[e] == c)
    ensures forall i :: k <= i < e ==> s[i] != c
    decreases |s| - k
  {
    if k == |s| || s[k] == c then k else Find(s, k + 1, c)
  }

  function SplitAt(s: string, k: nat): (fields: seq<string>)
    requires k <= |s|
    ensures fields != []
    decreases |s| - k
  {
    var e := Find(s, k, SEP);
    if e == |s| then [s[k..]] else [s[k..e]] + SplitAt(s, e + 1)
  }

  function Split(s: string): (fields: seq<string>)
    ensures fields != []
  {
    SplitAt(s, 0)
  }

  function Join(fields: seq<string>): string
    requires fields != []
  {
    if |fields| == 1 then fields[0] else fields[0] + [SEP] + Join(fields[1..])
  }

  /** A field, empty if there are not that many. */
  function Field(s: string, n: nat): string {
    if n < |Split(s)| then Split(s)[n] else ""
  }

  /** Where a field begins, or the end of the string if there are not that many. */
  function FieldStart(s: string, n: nat): (k: nat)
    ensures k <= |s|
  {
    if n == 0 then 0
    else
      var e := Find(s, FieldStart(s, n - 1), SEP);
      if e == |s| then |s| else e + 1
  }

  function Zeroed(s: string): (r: string)
    ensures |r| == |s| && forall k :: 0 <= k < |s| ==> r[k] == if s[k] == SEP then NUL else s[k]
  {
    seq(|s|, k requires 0 <= k < |s| => if s[k] == SEP then NUL else s[k])
  }

  /** What is read at an offset by somebody who stops at the first zero. */
  function CString(dest: string, offset: nat): string
    requires offset <= |dest|
  {
    dest[offset..Find(dest, offset, NUL)]
  }

  lemma TailOfSplit(s: string, k: nat)
    requires k <= |s|
    ensures var e := Find(s, k, SEP); SplitAt(s, k)[1..] == if e == |s| then [] else SplitAt(s, e + 1)
  {
  }

  /** The fields from a given one on are those which are found from its beginning on. */
  lemma {:induction false} SplitFrom(s: string, n: nat)
    ensures n < |Split(s)| ==> Split(s)[n..] == SplitAt(s, FieldStart(s, n))
    ensures n >= |Split(s)| ==> FieldStart(s, n) == |s|
  {
    hide SplitAt;
    if n > 0 {
      SplitFrom(s, n - 1);
      if n - 1 < |Split(s)| {
        TailOfSplit(s, FieldStart(s, n - 1));
        assert Split(s)[n..] == Split(s)[n - 1..][1..];
      }
    }
  }

  lemma FieldAtStart(s: string, n: nat)
    ensures Field(s, n) == s[FieldStart(s, n)..Find(s, FieldStart(s, n), SEP)]
  {
    SplitFrom(s, n);
    if n < |Split(s)| {
      assert Split(s)[n] == Split(s)[n..][0];
    }
  }

  lemma CStringIsField(src: string, dest: string, n: nat)
    requires NUL !in src && dest == Zeroed(src) + [NUL]
    ensures CString(dest, FieldStart(src, n)) == Field(src, n)
  {
    FieldAtStart(src, n);
    var k := FieldStart(src, n);
    var e, z := Find(src, k, SEP), Find(dest, k, NUL);
    assert dest[e] == NUL && z == e;
    assert dest[k..z] == src[k..e];
  }

  lemma JoinCons(field: string, rest: seq<string>)
    requires rest != []
    ensures Join([field] + rest) == field + [SEP] + Join(rest)
  {
    assert ([field] + rest)[1..] == rest;
  }

  lemma {:induction false} JoinSplitAt(s: string, k: nat)
    requires k <= |s|
    ensures Join(SplitAt(s, k)) == s[k..]
    decreases |s| - k
  {
    hide SplitAt, Find, Join;
    var e := Find(s, k, SEP);
    if e < |s| {
      FirstField(s, k);
      JoinSplitAt(s, e + 1);
      JoinCons(s[k..e], SplitAt(s, e + 1));
    } else {
      OnlyField(s, k);
    }
  }

  lemma OnlyField(s: string, k: nat)
    requires k <= |s| && Find(s, k, SEP) == |s|
    ensures SplitAt(s, k) == [s[k..]] && Join([s[k..]]) == s[k..]
  {
  }

  lemma FirstField(s: string, k: nat)
    requires k <= |s| && Find(s, k, SEP) < |s|
    ensures var e := Find(s, k, SEP);
      && e + 1 <= |s| && s[k..] == s[k..e] + [SEP] + s[e + 1..]
      && SplitAt(s, k) == [s[k..e]] + SplitAt(s, e + 1)
  {
    var e := Find(s, k, SEP);
    assert s[e] == SEP;
    assert s[k..] == s[k..e] + [s[e]] + s[e + 1..];
  }

  lemma SplitIsSingle(s: string)
    ensures |Split(s)| == 1 <==> SEP !in s
  {
    var e := Find(s, 0, SEP);
    if e < |s| {
      assert s[e] == SEP;
    }
  }

  lemma ThreeFields(s: string)
    requires |Split(s)| == 3
    ensures Join([Field(s, 0), Field(s, 1), Field(s, 2)]) == s
  {
    assert Split(s) == [Field(s, 0), Field(s, 1), Field(s, 2)];
    JoinSplitAt(s, 0);
  }

  /** After `i` characters: how many separators have been seen, counted up to two, and where the
      fields after them begin. */
  ghost predicate Scanned(src: string, i: nat, idx: nat, artist: nat, album: nat) {
    && i <= |src| && idx <= 2
    && (artist == if idx == 0 then |src| else FieldStart(src, 1))
    && (album == if idx <= 1 then |src| else FieldStart(src, 2))
    && (idx < 2 ==> FieldStart(src, idx) <= i && forall j :: FieldStart(src, idx) <= j < i ==> src[j] != SEP)
  }

  lemma ScannedOne(src: string, i: nat, idx: nat, artist: nat, album: nat)
    requires i < |src| && Scanned(src, i, idx, artist, album)
    ensures src[i] != SEP || idx == 2 ==> Scanned(src, i + 1, idx, artist, album)
    ensures src[i] == SEP && idx == 0 ==> Scanned(src, i + 1, 1, i + 1, album)
    ensures src[i] == SEP && idx == 1 ==> Scanned(src, i + 1, 2, artist, i + 1)
  {
    if idx < 2 && src[i] == SEP {
      assert Find(src, FieldStart(src, idx), SEP) == i;
      assert FieldStart(src, idx + 1) == i + 1;
    }
  }

  lemma ZeroedOne(src: string, i: nat)
    requires i < |src|
    ensures Zeroed(src[..i + 1]) == Zeroed(src[..i]) + [if src[i] == SEP then NUL else src[i]]
    ensures SEP in src[..i + 1] <==> SEP in src[..i] || src[i] == SEP
  {
    assert src[..i + 1] == src[..i] + [src[i]];
  }

  lemma ScannedAll(src: string, idx: nat, artist: nat, album: nat)
    requires Scanned(src, |src|, idx, artist, album)
    ensures artist == FieldStart(src, 1) && album == FieldStart(src, 2)
  {
    if idx < 2 {
      assert Find(src, FieldStart(src, idx), SEP) == |src|;
      assert FieldStart(src, idx + 1) == |src|;
    }
  }

  method TokenizeMetaData(src: string) returns (dest: string, artist: nat, album: nat, isSingleString: bool)
    requires NUL !in src
    ensures artist < |dest| && album < |dest|
    ensures CString(dest, 0) == Field(src, 0)
    ensures CString(dest, artist) == Field(src, 1)
    ensures CString(dest, album) == Field(src, 2)
    ensures isSingleString <==> |Split(src)| == 1
    ensures |Split(src)| == 3 ==> Join([CString(dest, 0), CString(dest, artist), CString(dest, album)]) == src
  {
    dest, artist, album, isSingleString := [], |src|, |src|, true;
    var idx := 0;
    for i := 0 to |src|
      invariant dest == Zeroed(src[..i]) && (isSingleString <==> SEP !in src[..i])
      invariant idx <= 2 && Scanned(src, i, idx, artist, album)
    {
      hide FieldStart, Scanned, Zeroed;
      var ch := src[i];
      ScannedOne(src, i, idx, artist, album);
      ZeroedOne(src, i);
      if ch == SEP {
        isSingleString := false;
        dest := dest + [NUL];
        if idx < 2 {
          if idx == 0 {
            artist := i + 1;
          } else {
            album := i + 1;
          }
          idx := idx + 1;
        }
      } else {
        dest := dest + [ch];
      }
    }
    assert src[..|src|] == src;
    dest := dest + [NUL];
    ScannedAll(src, idx, artist, album);
    assert FieldStart(src, 0) == 0;
    hide FieldStart, Split, CString, Field, Zeroed, Scanned;
    CStringIsField(src, dest, 0);
    CStringIsField(src, dest, 1);
    CStringIsField(src, dest, 2);
    SplitIsSingle(src);
    if |Split(src)| == 3 {
      ThreeFields(src);
    }
  }
}
