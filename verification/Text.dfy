/** Strings as the services handle them: whitespace, splitting, joining and trimming. */
module Text {

  /** The whitespace both Python's `str` methods and JavaScript's `trim` remove. */
  predicate IsSpace(c: char) {
    c == ' ' || 9 <= c as int <= 13
  }

  /** A word as `str.split()` yields it: non-empty and free of whitespace. */
  predicate IsToken(w: string) {
    w != "" && forall i :: 0 <= i < |w| ==> !IsSpace(w[i])
  }

  predicate AllTokens(ws: seq<string>) {
    forall i :: 0 <= i < |ws| ==> IsToken(ws[i])
  }

  /** How many characters precede the first whitespace. */
  function TokenLength(s: string): (k: nat)
    ensures k <= |s|
    ensures forall i :: 0 <= i < k ==> !IsSpace(s[i])
    ensures k < |s| ==> IsSpace(s[k])
  {
    if s == "" || IsSpace(s[0]) then 0 else 1 + TokenLength(s[1..])
  }

  /** How many whitespace characters `s` begins with. */
  function Indent(s: string): (k: nat)
    ensures k <= |s|
    ensures forall i :: 0 <= i < k ==> IsSpace(s[i])
    ensures k < |s| ==> !IsSpace(s[k])
  {
    if s == "" || !IsSpace(s[0]) then 0 else 1 + Indent(s[1..])
  }

  /** How much of `s` remains without its trailing whitespace. */
  function TrimmedLength(s: string): (k: nat)
    ensures k <= |s|
    ensures forall i :: k <= i < |s| ==> IsSpace(s[i])
    ensures 0 < k ==> !IsSpace(s[k - 1])
  {
    if s == "" || !IsSpace(s[|s| - 1]) then |s| else TrimmedLength(s[..|s| - 1])
  }

  /** `str.lstrip()`. */
  function TrimStart(s: string): string {
    s[Indent(s)..]
  }

  /** `str.rstrip()`, JavaScript's `trimEnd()`. */
  function TrimEnd(s: string): string {
    s[..TrimmedLength(s)]
  }

  /** `str.strip()`, JavaScript's `trim()`. */
  function Trim(s: string): string {
    TrimEnd(TrimStart(s))
  }

  /** `str.split()`: the maximal whitespace-free pieces, in order. */
  function Split(s: string): (ws: seq<string>)
    ensures AllTokens(ws)
    decreases |s|, 1
  {
    Words(s[Indent(s)..])
  }

  /** The pieces of a string that begins with one. */
  function Words(s: string): (ws: seq<string>)
    requires s == "" || !IsSpace(s[0])
    ensures AllTokens(ws)
    decreases |s|, 0
  {
    if s == "" then [] else
      var n := TokenLength(s);
      [s[..n]] + Split(s[n..])
  }

  /** `separator.join(ws)`. */
  function Join(ws: seq<string>, separator: string := " "): string {
    if ws == [] then ""
    else if |ws| == 1 then ws[0]
    else ws[0] + separator + Join(ws[1..], separator)
  }

  predicate OccursAt(s: string, pattern: string, i: nat) {
    i + |pattern| <= |s| && s[i..i + |pattern|] == pattern
  }

  lemma OccursLater(s: string, pattern: string, j: nat)
    requires 0 < j <= |s|
    ensures OccursAt(s, pattern, j) <==> OccursAt(s[1..], pattern, j - 1)
  {
    if j + |pattern| <= |s| {
      assert s[j..j + |pattern|] == s[1..][j - 1..j - 1 + |pattern|];
    }
  }

  lemma OccurrenceHas(s: string, pattern: string, j: nat, k: nat)
    requires k < |pattern| && j + k < |s|
    ensures OccursAt(s, pattern, j) ==> s[j + k] == pattern[k]
  {
    if OccursAt(s, pattern, j) {
      assert s[j..j + |pattern|][k] == s[j + k];
    }
  }

  /** JavaScript's `indexOf`: where `pattern` first occurs, or -1. */
  function IndexOf(s: string, pattern: string): (i: int)
    ensures -1 <= i
    ensures 0 <= i ==> OccursAt(s, pattern, i)
    ensures forall j: nat :: j < i || i == -1 ==> !OccursAt(s, pattern, j)
  {
    if OccursAt(s, pattern, 0) then 0
    else if s == "" then -1
    else
      var i := IndexOf(s[1..], pattern);
      assert forall j: nat :: 0 < j <= |s| && OccursAt(s, pattern, j) ==> OccursAt(s[1..], pattern, j - 1) by {
        forall j: nat | 0 < j <= |s| && OccursAt(s, pattern, j)
          ensures OccursAt(s[1..], pattern, j - 1)
        {
          OccursLater(s, pattern, j);
        }
      }
      if i == -1 then -1 else OccursLater(s, pattern, i + 1); i + 1
  }

  /** JavaScript's `split(separator)`, which keeps empty pieces. */
  function SplitOn(s: string, separator: string): (pieces: seq<string>)
    requires separator != ""
    ensures pieces != []
  {
    var i := IndexOf(s, separator);
    if i == -1 then [s] else [s[..i]] + SplitOn(s[i + |separator|..], separator)
  }

  lemma SplitFirst(w: string, rest: string)
    requires IsToken(w)
    requires rest == "" || IsSpace(rest[0])
    ensures Split(w + rest) == [w] + Split(rest)
  {
    var s := w + rest;
    assert s[0] == w[0];
    assert Indent(s) == 0 && s[0..] == s;
    assert forall i :: 0 <= i < |w| ==> s[i] == w[i];
    assert |w| < |s| ==> s[|w|] == rest[0];
    assert TokenLength(s) == |w|;
    assert s[..|w|] == w && s[|w|..] == rest;
  }

  lemma SplitSkipsSpace(s: string)
    ensures Split(" " + s) == Split(s)
  {
    hide Words;
    var t, k := " " + s, Indent(s);
    assert t[1..] == s;
    assert Indent(t) == k + 1;
    assert t[k + 1..] == s[k..];
  }

  lemma SplitNothing()
    ensures Split("") == []
  {
    assert Indent("") == 0;
  }

  /** Splitting undoes joining, so joined words carry no incidental whitespace. */
  lemma {:induction false} SplitJoin(ws: seq<string>)
    requires AllTokens(ws)
    ensures Split(Join(ws)) == ws
  {
    hide Split, IsToken;
    if ws == [] {
      SplitNothing();
    } else {
      var w, tail := ws[0], ws[1..];
      assert ws == [w] + tail;
      SplitJoin(tail);
      if tail == [] {
        SplitFirst(w, "");
        assert w + "" == w;
      } else {
        SplitFirst(w, " " + Join(tail));
        SplitSkipsSpace(Join(tail));
        assert w + " " + Join(tail) == w + (" " + Join(tail));
      }
    }
  }

  // ---------------------------------------------------- what splitting means

  /** Which characters are whitespace: blank, tab, line feed, line and page tabulation, carriage return. */
  lemma SpacesAre(c: char)
    ensures IsSpace(c) <==> c in {' ', '\t', '\n', '\U{000B}', '\U{000C}', '\r'}
  {
    assert '\t' as int == 9 && '\n' as int == 10 && '\r' as int == 13;
    assert '\U{000B}' as int == 11 && '\U{000C}' as int == 12;
    if 9 <= c as int <= 13 {
      assert c == (c as int) as char;
    }
  }

  /** The `n` characters from `a` on are a maximal stretch without whitespace. */
  predicate Stretch(s: string, a: nat, n: nat) {
    0 < n && a + n <= |s| && (forall k :: a <= k < a + n ==> !IsSpace(s[k])) &&
    (a == 0 || IsSpace(s[a - 1])) && (a + n == |s| || IsSpace(s[a + n]))
  }

  /** The word `w` is a maximal stretch of `s`, from `a` on. */
  predicate StandsIn(s: string, a: nat, w: string) {
    Stretch(s, a, |w|) && s[a..a + |w|] == w
  }

  /** The words stand in `s` at increasing, disjoint places, each a maximal stretch, and leave out only whitespace. */
  ghost predicate StandAt(s: string, ws: seq<string>, starts: seq<nat>) {
    |starts| == |ws| && (forall i :: 0 <= i < |ws| ==> StandsIn(s, starts[i], ws[i])) &&
    Apart(ws, starts) && Covered(s, ws, starts)
  }

  predicate Apart(ws: seq<string>, starts: seq<nat>)
    requires |starts| == |ws|
  {
    forall i, j :: 0 <= i < j < |ws| ==> starts[i] + |ws[i]| < starts[j]
  }

  ghost predicate Covered(s: string, ws: seq<string>, starts: seq<nat>) {
    forall k :: 0 <= k < |s| && !IsSpace(s[k]) ==> exists i :: Within(ws, starts, i, k)
  }

  ghost predicate Within(ws: seq<string>, starts: seq<nat>, i: int, k: int) {
    0 <= i < |ws| && i < |starts| && starts[i] <= k < starts[i] + |ws[i]|
  }

  /** Places counted from `m` characters earlier. */
  function Moved(starts: seq<nat>, m: nat): (moved: seq<nat>)
    ensures |moved| == |starts| && forall i :: 0 <= i < |starts| ==> moved[i] == starts[i] + m
  {
    seq(|starts|, i requires 0 <= i < |starts| => starts[i] + m)
  }

  /** A stretch behind whitespace, or behind a word, is one of the whole. */
  lemma StretchLater(s: string, m: nat, a: nat, w: string)
    requires m <= |s| && StandsIn(s[m..], a, w)
    requires (0 < m ==> IsSpace(s[m - 1])) || (m < |s| ==> IsSpace(s[m]))
    ensures StandsIn(s, a + m, w)
    ensures m < |s| && IsSpace(s[m]) ==> 0 < a
  {
    hide IsSpace;
    var rest := s[m..];
    assert forall k :: 0 <= k < |rest| ==> rest[k] == s[m + k];
    assert s[a + m..a + m + |w|] == rest[a..a + |w|];
  }

  lemma AllLater(s: string, m: nat, ws: seq<string>, starts: seq<nat>)
    requires m <= |s| && |starts| == |ws| && forall i :: 0 <= i < |ws| ==> StandsIn(s[m..], starts[i], ws[i])
    requires (0 < m ==> IsSpace(s[m - 1])) || (m < |s| ==> IsSpace(s[m]))
    ensures forall i :: 0 <= i < |ws| ==> StandsIn(s, Moved(starts, m)[i], ws[i])
    ensures m < |s| && IsSpace(s[m]) ==> forall i :: 0 <= i < |ws| ==> 0 < starts[i]
  {
    hide IsSpace, StandsIn, Moved;
    forall i | 0 <= i < |ws|
      ensures StandsIn(s, Moved(starts, m)[i], ws[i])
      ensures m < |s| && IsSpace(s[m]) ==> 0 < starts[i]
    {
      StretchLater(s, m, starts[i], ws[i]);
    }
  }

  lemma CoveredLater(s: string, m: nat, ws: seq<string>, starts: seq<nat>)
    requires m <= |s| && |starts| == |ws| && Covered(s[m..], ws, starts)
    ensures forall k :: m <= k < |s| && !IsSpace(s[k]) ==> exists i :: Within(ws, Moved(starts, m), i, k)
  {
    hide IsSpace, Moved;
    forall k | m <= k < |s| && !IsSpace(s[k])
      ensures exists i :: Within(ws, Moved(starts, m), i, k)
    {
      assert s[m..][k - m] == s[k];
      var i :| Within(ws, starts, i, k - m);
      assert Within(ws, Moved(starts, m), i, k);
    }
  }

  /** Whitespace in front moves every place. */
  lemma StandBehindSpace(s: string, k: nat, ws: seq<string>, starts: seq<nat>)
    requires k <= |s| && (forall j :: 0 <= j < k ==> IsSpace(s[j])) && StandAt(s[k..], ws, starts)
    ensures StandAt(s, ws, Moved(starts, k))
  {
    hide IsSpace, StandsIn, Moved;
    AllLater(s, k, ws, starts);
    CoveredLater(s, k, ws, starts);
  }

  /** So does a word in front. */
  lemma StandBehindWord(t: string, n: nat, ws: seq<string>, starts: seq<nat>)
    requires Stretch(t, 0, n) && StandAt(t[n..], ws, starts)
    ensures StandAt(t, [t[..n]] + ws, [0] + Moved(starts, n))
  {
    assert StandsIn(t, 0, t[..n]);
    assert n < |t| ==> IsSpace(t[n]);
    hide IsSpace, StandsIn, Stretch, Moved;
    AllLater(t, n, ws, starts);
    CoveredLater(t, n, ws, starts);
    if n < |t| {
      WordInFront(t, t[..n], ws, Moved(starts, n));
    } else {
      assert t[n..] == "";
      NothingBehind(ws, starts);
      WordInFront(t, t[..n], ws, Moved(starts, n));
    }
  }

  lemma NothingBehind(ws: seq<string>, starts: seq<nat>)
    requires StandAt("", ws, starts)
    ensures ws == []
  {
    assert 0 < |ws| ==> StandsIn("", starts[0], ws[0]);
  }

  lemma WordInFront(t: string, w: string, ws: seq<string>, moved: seq<nat>)
    requires |moved| == |ws| && StandsIn(t, 0, w) && forall i :: 0 <= i < |ws| ==> StandsIn(t, moved[i], ws[i])
    requires Apart(ws, moved) && forall i :: 0 <= i < |ws| ==> |w| < moved[i]
    requires forall k :: |w| <= k < |t| && !IsSpace(t[k]) ==> exists i :: Within(ws, moved, i, k)
    ensures StandAt(t, [w] + ws, [0] + moved)
  {
    hide IsSpace, StandsIn;
    var words, all := [w] + ws, [0] + moved;
    forall k | 0 <= k < |t| && !IsSpace(t[k])
      ensures exists i :: Within(words, all, i, k)
    {
      if k < |w| {
        assert Within(words, all, 0, k);
      } else {
        var i :| Within(ws, moved, i, k);
        assert Within(words, all, i + 1, k);
      }
    }
  }

  /** Splitting yields exactly the maximal whitespace-free stretches, in order, and leaves out only whitespace. */
  lemma {:induction false} SplitStands(s: string) returns (starts: seq<nat>)
    ensures StandAt(s, Split(s), starts)
    decreases |s|, 1
  {
    hide StandAt, IsSpace, Words, Moved, AllTokens;
    var rest := WordsStand(s[Indent(s)..]);
    StandBehindSpace(s, Indent(s), Split(s), rest);
    starts := Moved(rest, Indent(s));
  }

  lemma {:induction false} WordsStand(t: string) returns (starts: seq<nat>)
    requires t == "" || !IsSpace(t[0])
    ensures StandAt(t, Words(t), starts)
    decreases |t|, 0
  {
    hide IsSpace, Split, Moved, AllTokens;
    if t == "" {
      starts := [];
    } else {
      var n := TokenLength(t);
      hide StandAt;
      var rest := SplitStands(t[n..]);
      StandBehindWord(t, n, Split(t[n..]), rest);
      starts := [0] + Moved(rest, n);
    }
  }

  /** Joining puts the separator, and by default one blank, between neighbours and nowhere else. */
  lemma {:induction false} JoinAppends(ws: seq<string>, w: string, separator: string)
    ensures Join([], separator) == "" && Join([w], separator) == w
    ensures ws != [] ==> Join(ws + [w], separator) == Join(ws, separator) + separator + w
    ensures ws != [] ==> Join(ws + [w]) == Join(ws) + " " + w
    decreases |ws|
  {
    if ws != [] {
      var all := ws + [w];
      JoinGrows(ws, w, separator);
      JoinGrows(ws, w, " ");
    }
  }

  lemma {:induction false} JoinGrows(ws: seq<string>, w: string, separator: string)
    requires ws != []
    ensures Join(ws + [w], separator) == Join(ws, separator) + separator + w
  {
    var all := ws + [w];
    assert all[0] == ws[0] && all[1..] == ws[1..] + [w];
    if |ws| > 1 {
      JoinGrows(ws[1..], w, separator);
      var front := ws[0] + separator;
      assert front + (Join(ws[1..], separator) + separator + w) == front + Join(ws[1..], separator) + separator + w;
    }
  }

  /** Joined words neither begin nor end with whitespace. */
  lemma {:induction false} JoinIsTrimmed(ws: seq<string>)
    requires ws != [] && AllTokens(ws)
    ensures Join(ws) != "" && !IsSpace(Join(ws)[0]) && !IsSpace(Join(ws)[|Join(ws)| - 1])
    ensures Trim(Join(ws)) == Join(ws)
  {
    var s := Join(ws);
    assert IsToken(ws[0]);
    if |ws| > 1 {
      JoinIsTrimmed(ws[1..]);
    }
    TrimKeeps(s);
  }

  /** What trimming keeps: from `a` to `b`, with only whitespace before and behind, and none at its own ends. */
  lemma TrimIs(s: string) returns (a: nat, b: nat)
    ensures a <= b <= |s| && Trim(s) == s[a..b]
    ensures forall k :: 0 <= k < |s| && (k < a || b <= k) ==> IsSpace(s[k])
    ensures a < b ==> !IsSpace(s[a]) && !IsSpace(s[b - 1])
  {
    hide IsSpace, Indent, TrimmedLength;
    a := Indent(s);
    b := a + TrimmedLength(s[a..]);
    Tail(s, a, b);
  }

  lemma Tail(s: string, a: nat, b: nat)
    requires a <= b <= |s|
    ensures s[a..][..b - a] == s[a..b] && forall k :: a <= k < |s| ==> s[k] == s[a..][k - a]
  {
  }

  lemma TrimKeeps(s: string)
    requires s != "" && !IsSpace(s[0]) && !IsSpace(s[|s| - 1])
    ensures Trim(s) == s
  {
    assert Indent(s) == 0 && s[0..] == s;
    assert TrimmedLength(s) == |s| && s[..|s|] == s;
  }

  /** A piece without the separator's first character ends where the separator comes. */
  lemma IndexAfter(piece: string, separator: string, rest: string)
    requires separator != "" && separator[0] !in piece
    ensures IndexOf(piece + separator + rest, separator) == |piece|
  {
    var s := piece + separator + rest;
    assert OccursAt(s, separator, |piece|);
    forall j: nat | j < |piece|
      ensures !OccursAt(s, separator, j)
    {
      assert s[j] == piece[j];
      OccurrenceHas(s, separator, j, 0);
    }
  }

  lemma NoSeparator(piece: string, separator: string)
    requires separator != "" && separator[0] !in piece
    ensures IndexOf(piece, separator) == -1
  {
    forall j: nat | j < |piece|
      ensures !OccursAt(piece, separator, j)
    {
      OccurrenceHas(piece, separator, j, 0);
    }
  }

  /** Splitting on a separator undoes joining with it, for pieces without the separator's first character. */
  lemma {:induction false} SplitOnJoin(pieces: seq<string>, separator: string)
    requires pieces != [] && separator != ""
    requires forall i :: 0 <= i < |pieces| ==> separator[0] !in pieces[i]
    ensures SplitOn(Join(pieces, separator), separator) == pieces
  {
    hide IndexOf;
    if |pieces| == 1 {
      NoSeparator(pieces[0], separator);
    } else {
      var rest := Join(pieces[1..], separator);
      var s := pieces[0] + separator + rest;
      IndexAfter(pieces[0], separator, rest);
      SplitOnJoin(pieces[1..], separator);
      assert s[..|pieces[0]|] == pieces[0] && s[|pieces[0]| + |separator|..] == rest;
      assert pieces == [pieces[0]] + pieces[1..];
    }
  }

  lemma TrimSkipsSpace(s: string)
    ensures Trim(" " + s) == Trim(s)
  {
    var t, k := " " + s, Indent(s);
    assert t[1..] == s;
    assert Indent(t) == k + 1;
    assert t[k + 1..] == s[k..];
  }

  /** Splitting on a separator cuts at each of its occurrences, the leftmost first: nothing is lost between pieces. */
  lemma {:induction false} SplitOnIs(s: string, separator: string)
    requires separator != ""
    ensures Join(SplitOn(s, separator), separator) == s
    ensures forall piece :: piece in SplitOn(s, separator) ==> NoneIn(piece, separator)
    decreases |s|
  {
    hide IndexOf;
    var i := IndexOf(s, separator);
    if i == -1 {
      assert SplitOn(s, separator) == [s];
    } else {
      OccursInside(s, separator);
      var rest := s[i + |separator|..];
      SplitOnIs(rest, separator);
      FirstPiece(s, separator);
      assert s == s[..i] + separator + rest;
      var pieces := [s[..i]] + SplitOn(rest, separator);
      assert pieces[1..] == SplitOn(rest, separator);
    }
  }

  /** The separator occurs nowhere in the piece. */
  predicate NoneIn(piece: string, separator: string) {
    forall j: nat :: j <= |piece| ==> !OccursAt(piece, separator, j)
  }

  lemma OccursInside(s: string, pattern: string)
    requires IndexOf(s, pattern) != -1
    ensures var i := IndexOf(s, pattern); i + |pattern| <= |s| && s[i..i + |pattern|] == pattern
  {
  }

  lemma FirstPiece(s: string, separator: string)
    requires separator != "" && IndexOf(s, separator) != -1
    ensures NoneIn(s[..IndexOf(s, separator)], separator)
  {
    var i := IndexOf(s, separator);
    var piece := s[..i];
    forall j: nat | j <= |piece|
      ensures !OccursAt(piece, separator, j)
    {
      if OccursAt(piece, separator, j) {
        assert s[j..j + |separator|] == piece[j..j + |separator|];
        assert OccursAt(s, separator, j);
      }
    }
  }
}
