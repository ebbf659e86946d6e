/**
 * The string operations the pipeline relies on, with Python's semantics:
 * `not s.strip()` (blank text), `s.split(sep)`, `sep.join(pieces)` and the
 * comprehension `[p for p in ps if p.strip()]`.
 */
module Text {

  /** A character that `str.strip()` removes: exactly the characters for which
      Python's `str.isspace()` holds. */
  predicate IsSpace(c: char) {
    || c == ' '
    || ('\U{9}' <= c <= '\U{D}')
    || ('\U{1C}' <= c <= '\U{1F}')
    || c == '\U{85}' || c == '\U{A0}' || c == '\U{1680}'
    || ('\U{2000}' <= c <= '\U{200A}')
    || c == '\U{2028}' || c == '\U{2029}' || c == '\U{202F}' || c == '\U{205F}' || c == '\U{3000}'
  }

  /** `not s.strip()`: the text is empty or holds only whitespace. */
  predicate IsBlank(s: string) {
    forall i | 0 <= i < |s| :: IsSpace(s[i])
  }

  /** `[p for p in ps if p.strip()]`: the pieces that hold a non-whitespace character. */
  function NonBlank(ps: seq<string>): seq<string> {
    if ps == [] then []
    else (if IsBlank(ps[0]) then [] else [ps[0]]) + NonBlank(ps[1..])
  }

  /** The filter keeps exactly the non-blank pieces: no more than it was given,
      none of them blank, and every non-blank piece of the input. */
  lemma {:induction false} NonBlankMembers(ps: seq<string>)
    ensures |NonBlank(ps)| <= |ps|
    ensures forall i | 0 <= i < |NonBlank(ps)| :: !IsBlank(NonBlank(ps)[i])
    ensures forall p :: p in NonBlank(ps) <==> p in ps && !IsBlank(p)
  {
    if ps != [] {
      NonBlankMembers(ps[1..]);
      assert forall p :: p in ps <==> p == ps[0] || p in ps[1..];
    }
  }

  /** Filtering distributes over concatenation: the kept pieces stay in their order. */
  lemma {:induction false} NonBlankAppend(a: seq<string>, b: seq<string>)
    ensures NonBlank(a + b) == NonBlank(a) + NonBlank(b)
  {
    if a == [] {
      assert a + b == b;
    } else {
      assert (a + b)[0] == a[0];
      assert (a + b)[1..] == a[1..] + b;
      NonBlankAppend(a[1..], b);
    }
  }

  /** A list with no blank piece passes the filter unchanged; in particular the
      filter is idempotent. */
  lemma {:induction false} NonBlankKeepsClean(ps: seq<string>)
    requires forall i | 0 <= i < |ps| :: !IsBlank(ps[i])
    ensures NonBlank(ps) == ps
  {
    if ps != [] {
      NonBlankKeepsClean(ps[1..]);
    }
  }

  /** `s` holds `sep` starting at index `i`. */
  predicate OccursAt(s: string, sep: string, i: nat) {
    i + |sep| <= |s| && s[i..i + |sep|] == sep
  }

  /** `s.split(sep)` for a non-empty separator: cut at every occurrence of `sep`,
      scanning left to right without overlap. The first piece is a prefix of `s`. */
  function Split(s: string, sep: string): (r: seq<string>)
    requires sep != []
    ensures |r| >= 1
    ensures r[0] <= s
    decreases |s|
  {
    if OccursAt(s, sep, 0) then [""] + Split(s[|sep|..], sep)
    else if s == [] then [""]
    else
      var rest := Split(s[1..], sep);
      [[s[0]] + rest[0]] + rest[1..]
  }

  /** `sep.join(pieces)`. */
  function Join(pieces: seq<string>, sep: string): string {
    if |pieces| == 0 then ""
    else if |pieces| == 1 then pieces[0]
    else pieces[0] + sep + Join(pieces[1..], sep)
  }

  /** Joining a list with one more piece in front. */
  lemma JoinFront(x: string, ps: seq<string>, sep: string)
    requires |ps| >= 1
    ensures Join([x] + ps, sep) == x + sep + Join(ps, sep)
  {
    assert ([x] + ps)[1..] == ps;
  }

  /** Gluing a prefix onto the first piece glues it onto the joined text. */
  lemma JoinGlue(c: string, ps: seq<string>, sep: string)
    requires |ps| >= 1
    ensures Join([c + ps[0]] + ps[1..], sep) == c + Join(ps, sep)
  {
    var q := [c + ps[0]] + ps[1..];
    if |ps| > 1 {
      assert q[1..] == ps[1..];
      assert Join(q, sep) == (c + ps[0]) + sep + Join(ps[1..], sep);
      assert Join(ps, sep) == ps[0] + sep + Join(ps[1..], sep);
    }
  }

  /** The split of a text that starts with the separator. */
  lemma SplitAtSep(s: string, sep: string)
    requires sep != [] && OccursAt(s, sep, 0)
    ensures Split(s, sep) == [""] + Split(s[|sep|..], sep)
    ensures s == sep + s[|sep|..]
  {
    assert s == s[..|sep|] + s[|sep|..];
  }

  /** The split of a non-empty text that does not start with the separator. */
  lemma SplitAtChar(s: string, sep: string)
    requires sep != [] && !OccursAt(s, sep, 0) && s != []
    ensures var rest := Split(s[1..], sep);
      Split(s, sep) == [[s[0]] + rest[0]] + rest[1..]
    ensures s == [s[0]] + s[1..]
  {
  }

  /** Joining the pieces of a split with the same separator gives back the text. */
  lemma {:induction false} JoinSplit(s: string, sep: string)
    requires sep != []
    ensures Join(Split(s, sep), sep) == s
    decreases |s|
  {
    if OccursAt(s, sep, 0) {
      JoinSplit(s[|sep|..], sep);
      JoinSplitSep(s, sep);
    } else if s != [] {
      JoinSplit(s[1..], sep);
      JoinSplitChar(s, sep);
    }
  }

  /** The step of `JoinSplit` for a text that starts with the separator. */
  lemma JoinSplitSep(s: string, sep: string)
    requires sep != [] && OccursAt(s, sep, 0)
    requires Join(Split(s[|sep|..], sep), sep) == s[|sep|..]
    ensures Join(Split(s, sep), sep) == s
  {
    SplitAtSep(s, sep);
    JoinFront("", Split(s[|sep|..], sep), sep);
  }

  /** The step of `JoinSplit` for a text that starts with another character. */
  lemma JoinSplitChar(s: string, sep: string)
    requires sep != [] && !OccursAt(s, sep, 0) && s != []
    requires Join(Split(s[1..], sep), sep) == s[1..]
    ensures Join(Split(s, sep), sep) == s
  {
    SplitAtChar(s, sep);
    JoinGlue([s[0]], Split(s[1..], sep), sep);
  }

  /** An occurrence past the first character is an occurrence in the rest. */
  lemma OccursShift(c: char, p: string, sep: string, i: nat)
    requires i > 0
    ensures OccursAt([c] + p, sep, i) == OccursAt(p, sep, i - 1)
  {
    if i + |sep| <= |[c] + p| {
      assert ([c] + p)[i..i + |sep|] == p[i - 1..i - 1 + |sep|];
    }
  }

  /** No piece of a split holds the separator: the cut is made at every occurrence. */
  lemma {:induction false} SplitPiecesFree(s: string, sep: string, k: nat, i: nat)
    requires sep != []
    requires k < |Split(s, sep)|
    ensures !OccursAt(Split(s, sep)[k], sep, i)
    decreases |s|
  {
    if OccursAt(s, sep, 0) {
      SplitAtSep(s, sep);
      if k > 0 {
        SplitPiecesFree(s[|sep|..], sep, k - 1, i);
      }
    } else if s != [] {
      SplitAtChar(s, sep);
      var rest := Split(s[1..], sep);
      if k > 0 {
        SplitPiecesFree(s[1..], sep, k, i);
      } else if i == 0 {
        // the first piece is a prefix of s, which does not start with sep
        assert [s[0]] + rest[0] <= s;
      } else {
        SplitPiecesFree(s[1..], sep, 0, i - 1);
        OccursShift(s[0], rest[0], sep, i);
      }
    }
  }

  /** `str.split` cuts at the leftmost occurrence: when `p` is the first index
      where `sep` occurs, the first piece is everything before it and the rest
      is the split of what follows the separator. */
  lemma {:induction false} SplitAtFirst(s: string, sep: string, p: nat)
    requires sep != [] && OccursAt(s, sep, p)
    requires forall q: nat | q < p :: !OccursAt(s, sep, q)
    ensures Split(s, sep) == [s[..p]] + Split(s[p + |sep|..], sep)
    decreases p
  {
    if p == 0 {
      SplitAtSep(s, sep);
    } else {
      var t, k := s[1..], p - 1;
      SplitAtChar(s, sep);
      FirstInTail(s, sep, k, p);
      SplitAtFirst(t, sep, k);
      GlueFirstPiece(s, sep, k, p, Split(t, sep));
    }
  }

  /** The first occurrence in `s`, at `p = k + 1`, is at `k` in `s[1..]`. */
  lemma FirstInTail(s: string, sep: string, k: nat, p: nat)
    requires p == k + 1 && OccursAt(s, sep, p)
    requires forall q: nat | q < p :: !OccursAt(s, sep, q)
    ensures s != [] && OccursAt(s[1..], sep, k)
    ensures forall q: nat | q < k :: !OccursAt(s[1..], sep, q)
  {
    assert s == [s[0]] + s[1..];
    OccursShift(s[0], s[1..], sep, p);
    forall q: nat | q < k ensures !OccursAt(s[1..], sep, q) {
      OccursShift(s[0], s[1..], sep, q + 1);
    }
  }

  /** Putting the first character back on the first piece of the tail's split. */
  lemma GlueFirstPiece(s: string, sep: string, k: nat, p: nat, rest: seq<string>)
    requires sep != [] && p == k + 1 && p + |sep| <= |s|
    requires rest == [s[1..][..k]] + Split(s[1..][k + |sep|..], sep)
    ensures [[s[0]] + rest[0]] + rest[1..] == [s[..p]] + Split(s[p + |sep|..], sep)
  {
    ConsTake(s, k, p);
    TailDrop(s, k + |sep|, p + |sep|);
    var u, v := s[1..][k + |sep|..], s[p + |sep|..];
    assert u == v;
    var t1, t2 := Split(u, sep), Split(v, sep);
    assert t1 == t2;
    GlueList(s[0], s[1..][..k], s[..p], t1, t2, rest);
  }

  /** Gluing a character onto the first piece of `[x] + t1` gives `[y] + t2`
      when `[c] + x` is `y` and the tails agree. */
  lemma GlueList(c: char, x: string, y: string, t1: seq<string>, t2: seq<string>, rest: seq<string>)
    requires [c] + x == y && t1 == t2 && rest == [x] + t1
    ensures [[c] + rest[0]] + rest[1..] == [y] + t2
  {
    assert rest[0] == x && rest[1..] == t1;
  }

  /** The first character followed by `k` more is the prefix of length `k + 1`. */
  lemma ConsTake(s: string, k: nat, p: nat)
    requires p == k + 1 && p <= |s|
    ensures [s[0]] + s[1..][..k] == s[..p]
  {
  }

  /** Dropping `j` from the tail drops `j + 1` from the whole. */
  lemma TailDrop(s: string, j: nat, e: nat)
    requires e == j + 1 && e <= |s|
    ensures s[1..][j..] == s[e..]
  {
  }

  /** A text without the separator splits into itself alone. */
  lemma {:induction false} SplitNoSep(s: string, sep: string)
    requires sep != []
    requires forall q: nat :: !OccursAt(s, sep, q)
    ensures Split(s, sep) == [s]
    decreases |s|
  {
    if s != [] {
      var t := s[1..];
      SplitAtChar(s, sep);
      forall q: nat ensures !OccursAt(t, sep, q) {
        OccursShift(s[0], t, sep, q + 1);
      }
      SplitNoSep(t, sep);
    }
  }
}
