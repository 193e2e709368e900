/** The note a stored message carries for its attachments: what the API writes, and what the browser reads back. */
module AttachmentNote {
  import opened Text

  datatype Kind = Audio | Image

  datatype Badge = Badge(kind: Kind, count: nat)

  datatype Parsed = Parsed(text: string, badges: seq<Badge>)

  function Name(kind: Kind): string {
    if kind == Audio then "audio" else "image"
  }

  // ------------------------------------------------------------------ numbers

  predicate IsDigit(c: char) {
    '0' <= c <= '9'
  }

  /** `str(n)`. */
  function Decimal(n: nat): (s: string)
    ensures s != "" && forall i :: 0 <= i < |s| ==> IsDigit(s[i])
  {
    var last := ['0' + (n % 10) as char];
    if n < 10 then last else Decimal(n / 10) + last
  }

  /** `Number(s)`, for a string of digits. */
  function Number(s: string): nat
    requires forall i :: 0 <= i < |s| ==> IsDigit(s[i])
  {
    if s == "" then 0 else
      assert IsDigit(s[|s| - 1]);
      10 * Number(s[..|s| - 1]) + (s[|s| - 1] as int - '0' as int)
  }

  lemma {:induction false} NumberOfDecimal(n: nat)
    ensures Number(Decimal(n)) == n
  {
    var s := Decimal(n);
    if n < 10 {
      assert s[..|s| - 1] == "";
    } else {
      NumberOfDecimal(n / 10);
      assert s[..|s| - 1] == Decimal(n / 10);
    }
  }

  function DigitCount(s: string): (n: nat)
    ensures n <= |s|
    ensures forall i :: 0 <= i < n ==> IsDigit(s[i])
    ensures n < |s| ==> !IsDigit(s[n])
  {
    if s == "" || !IsDigit(s[0]) then 0 else 1 + DigitCount(s[1..])
  }

  // ------------------------------------------------------------------ writing

  /** The kinds, each at its first appearance. */
  function FirstSeen(parts: seq<Kind>): seq<Kind> {
    if parts == [] then []
    else
      var before, kind := FirstSeen(parts[..|parts| - 1]), parts[|parts| - 1];
      if kind in before then before else before + [kind]
  }

  function BadgesOf(parts: seq<Kind>): (badges: seq<Badge>)
    ensures |badges| == |FirstSeen(parts)|
  {
    var kinds := FirstSeen(parts);
    seq(|kinds|, i requires 0 <= i < |kinds| => Badge(kinds[i], multiset(parts)[kinds[i]]))
  }

  function Tag(badge: Badge): string {
    Decimal(badge.count) + " " + Name(badge.kind) + " attachment" + if badge.count > 1 then "s" else ""
  }

  function Tags(badges: seq<Badge>): (tags: seq<string>)
    ensures |tags| == |badges| && forall i :: 0 <= i < |tags| ==> tags[i] == Tag(badges[i])
  {
    seq(|badges|, i requires 0 <= i < |badges| => Tag(badges[i]))
  }

  function Bracketed(badges: seq<Badge>): string {
    "[" + Join(Tags(badges), ", ") + "]"
  }

  /** The message as stored: itself, the note alone, or both. */
  function Transcript(message: string, parts: seq<Kind>): string {
    if parts == [] then message
    else if Trim(message) != "" then Trim(message + "\n\n" + Bracketed(BadgesOf(parts)))
    else Bracketed(BadgesOf(parts))
  }

  /** Count the attachments by kind in a dictionary, which keeps the order its keys came in. */
  method UserTranscript(message: string, parts: seq<Kind>) returns (text: string)
    ensures text == Transcript(message, parts)
  {
    hide Trim, Tag, Join;
    if parts == [] {
      return message;
    }
    var kinds: seq<Kind>, counts: map<Kind, nat> := [], map[];
    for i := 0 to |parts|
      invariant kinds == FirstSeen(parts[..i])
      invariant forall kind :: kind in kinds <==> kind in counts
      invariant forall kind :: (if kind in counts then counts[kind] else 0) == multiset(parts[..i])[kind]
    {
      var kind := parts[i];
      assert parts[..i + 1][..i] == parts[..i] && parts[..i + 1] == parts[..i] + [kind];
      if kind !in counts {
        kinds := kinds + [kind];
      }
      counts := counts[kind := (if kind in counts then counts[kind] else 0) + 1];
    }
    assert parts[..|parts|] == parts;
    var tags: seq<string> := [];
    for i := 0 to |kinds|
      invariant tags == Tags(BadgesOf(parts))[..i]
    {
      var kind := kinds[i];
      tags := tags + [Tag(Badge(kind, counts[kind]))];
    }
    assert tags == Tags(BadgesOf(parts));
    var note := Join(tags, ", ");
    assert message + "\n\n" + Bracketed(BadgesOf(parts)) == message + "\n\n[" + note + "]";
    return if Trim(message) != "" then Trim(message + "\n\n[" + note + "]") else "[" + note + "]";
  }

  // ------------------------------------------------------------------ reading

  /** `\d+ (?:image|audio) attachments?` */
  predicate IsTag(s: string) {
    var n := DigitCount(s);
    0 < n && s[n..] in {" image attachment", " image attachments", " audio attachment", " audio attachments"}
  }

  predicate IsNote(s: string) {
    forall tag :: tag in SplitOn(s, ", ") ==> IsTag(tag)
  }

  /** Where the run of newlines that starts at `i` ends. */
  function NewlinesEnd(s: string, i: nat): (j: nat)
    requires i <= |s|
    ensures i <= j <= |s| && forall k :: i <= k < j ==> s[k] == '\n'
    ensures j < |s| ==> s[j] != '\n'
    decreases |s| - i
  {
    if i < |s| && s[i] == '\n' then NewlinesEnd(s, i + 1) else i
  }

  /** The expression matches from `i` to the end: newlines, then a bracketed note. */
  predicate NoteAt(s: string, i: nat)
    requires i <= |s|
  {
    var j := NewlinesEnd(s, i);
    j + 1 < |s| && s[j] == '[' && s[|s| - 1] == ']' && IsNote(s[j + 1..|s| - 1])
  }

  /** The leftmost match, or -1. */
  function FindNote(s: string, from: nat := 0): (i: int)
    requires from <= |s|
    ensures i == -1 || (from <= i <= |s| && NoteAt(s, i))
    ensures i == -1 ==> forall k :: from <= k <= |s| ==> !NoteAt(s, k)
    ensures forall k :: from <= k < i ==> !NoteAt(s, k)
    decreases |s| - from
  {
    if NoteAt(s, from) then from else if from == |s| then -1 else FindNote(s, from + 1)
  }

  /** What follows a tag's digits: its kind, and a word that is not read. */
  lemma TagWords(rest: string)
    requires rest in {" image attachment", " image attachments", " audio attachment", " audio attachments"}
    ensures rest == " " + Name(if rest[1] == 'a' then Audio else Image) + " " +
                    if |rest| == 18 then "attachments" else "attachment"
    ensures ' ' !in Name(if rest[1] == 'a' then Audio else Image)
    ensures ' ' !in if |rest| == 18 then "attachments" else "attachment"
  {
    assert " image attachment" == " " + "image" + " " + "attachment";
    assert " image attachments" == " " + "image" + " " + "attachments";
    assert " audio attachment" == " " + "audio" + " " + "attachment";
    assert " audio attachments" == " " + "audio" + " " + "attachments";
  }

  lemma JoinThree(a: string, b: string, c: string, separator: string)
    ensures Join([a, b, c], separator) == a + (separator + b + separator + c)
  {
    var pieces := [a, b, c];
    assert pieces[1..] == [b, c] && pieces[1..][1..] == [c];
    assert Join(pieces[1..], separator) == b + separator + c;
    assert a + (separator + b + separator + c) == a + separator + (b + separator + c);
  }

  /** A tag's three fields. */
  lemma TagFields(tag: string)
    requires IsTag(tag)
    ensures var fields, n := SplitOn(tag, " "), DigitCount(tag);
            |fields| == 3 && fields[0] == tag[..n] &&
            fields[1] == if tag[n + 1] == 'a' then Name(Audio) else Name(Image)
  {
    hide IndexOf, SplitOn, Join, Name, DigitCount;
    var n := DigitCount(tag);
    var digits, rest := tag[..n], tag[n..];
    var name := Name(if rest[1] == 'a' then Audio else Image);
    var word := if |rest| == 18 then "attachments" else "attachment";
    TagWords(rest);
    JoinThree(digits, name, word, " ");
    assert tag == digits + rest;
    assert ' ' !in digits;
    SplitOnJoin([digits, name, word], " ");
  }

  function BadgeIn(tag: string): Badge
    requires IsTag(tag)
  {
    TagFields(tag);
    var fields := SplitOn(tag, " ");
    Badge(if fields[1] == Name(Audio) then Audio else Image, Number(fields[0]))
  }

  function BadgesIn(tags: seq<string>): seq<Badge>
    requires forall tag :: tag in tags ==> IsTag(tag)
  {
    seq(|tags|, i requires 0 <= i < |tags| => BadgeIn(tags[i]))
  }

  /** Split a stored message into its text and the badges of its note, if it ends in one. */
  function Parse(content: string): Parsed {
    var i := FindNote(content);
    if i == -1 then Parsed(content, [])
    else
      var note := content[NewlinesEnd(content, i) + 1..|content| - 1];
      Parsed(TrimEnd(content[..i]), BadgesIn(SplitOn(note, ", ")))
  }

  // ------------------------------------------------------------ what a note is

  /** A character of neither the pieces nor the separator is not in the whole. */
  lemma {:induction false} NotInPieces(s: string, separator: string, c: char)
    requires separator != "" && c !in separator
    requires forall piece :: piece in SplitOn(s, separator) ==> c !in piece
    ensures c !in s
    decreases |s|
  {
    hide IndexOf;
    var i, pieces := IndexOf(s, separator), SplitOn(s, separator);
    assert pieces[0] in pieces;
    if i == -1 {
      assert pieces[0] == s;
    } else {
      IndexFound(s, separator);
      var rest := s[i + |separator|..];
      assert forall piece :: piece in SplitOn(rest, separator) ==> piece in pieces;
      NotInPieces(rest, separator, c);
      assert s == s[..i] + separator + rest;
    }
  }

  lemma IndexFound(s: string, pattern: string)
    requires IndexOf(s, pattern) != -1
    ensures var i := IndexOf(s, pattern);
            0 <= i <= |s| - |pattern| && s[i..i + |pattern|] == pattern
  {
  }

  lemma NoBracketInTag(tag: string)
    requires IsTag(tag)
    ensures '[' !in tag
  {
    var n := DigitCount(tag);
    assert tag == tag[..n] + tag[n..];
    assert '[' !in tag[n..];
  }

  lemma NoBracketInNote(note: string)
    requires IsNote(note)
    ensures '[' !in note
  {
    forall tag | tag in SplitOn(note, ", ")
      ensures '[' !in tag
    {
      NoBracketInTag(tag);
    }
    NotInPieces(note, ", ", '[');
  }

  // ------------------------------------------------------------ printed notes

  lemma {:induction false} LeadingDigits(digits: string, rest: string)
    requires forall i :: 0 <= i < |digits| ==> IsDigit(digits[i])
    requires rest == "" || !IsDigit(rest[0])
    ensures DigitCount(digits + rest) == |digits|
  {
    var s := digits + rest;
    assert forall i :: 0 <= i < |digits| ==> s[i] == digits[i];
    assert |digits| < |s| ==> s[|digits|] == rest[0];
  }

  function TagTail(badge: Badge): string {
    " " + Name(badge.kind) + " attachment" + if badge.count > 1 then "s" else ""
  }

  lemma TagTailIsExpected(badge: Badge)
    ensures TagTail(badge) in {" image attachment", " image attachments", " audio attachment", " audio attachments"}
    ensures TagTail(badge)[0] == ' ' && (TagTail(badge)[1] == 'a' <==> badge.kind == Audio) && ',' !in TagTail(badge)
  {
    assert " image attachment" == " " + "image" + " attachment" + "";
    assert " image attachments" == " " + "image" + " attachment" + "s";
    assert " audio attachment" == " " + "audio" + " attachment" + "";
    assert " audio attachments" == " " + "audio" + " attachment" + "s";
  }

  lemma TagIsTag(badge: Badge)
    requires badge.count > 0
    ensures IsTag(Tag(badge)) && BadgeIn(Tag(badge)) == badge
    ensures ',' !in Tag(badge)
  {
    hide IndexOf, SplitOn, TagTail, Number, Decimal;
    var digits, tail, tag := Decimal(badge.count), TagTail(badge), Tag(badge);
    TagTailIsExpected(badge);
    TagSplits(badge);
    LeadingDigits(digits, tail);
    assert tag[..|digits|] == digits && tag[|digits|..] == tail;
    assert ',' !in digits && tag[|digits| + 1] == tail[1];
    NumberOfDecimal(badge.count);
    TagFields(tag);
  }

  lemma TagSplits(badge: Badge)
    ensures Tag(badge) == Decimal(badge.count) + TagTail(badge)
  {
  }

  lemma NoteIsNote(badges: seq<Badge>)
    requires badges != [] && forall badge :: badge in badges ==> badge.count > 0
    ensures var note := Join(Tags(badges), ", ");
            SplitOn(note, ", ") == Tags(badges) && IsNote(note) && BadgesIn(SplitOn(note, ", ")) == badges
  {
    hide IndexOf, SplitOn, Join, IsTag, BadgeIn, Tag;
    forall i | 0 <= i < |badges|
      ensures IsTag(Tags(badges)[i]) && BadgeIn(Tags(badges)[i]) == badges[i] && ',' !in Tags(badges)[i]
    {
      assert badges[i] in badges;
      TagIsTag(badges[i]);
    }
    SplitOnJoin(Tags(badges), ", ");
  }

  lemma {:induction false} FirstSeenAreSeen(parts: seq<Kind>)
    ensures forall kind :: kind in FirstSeen(parts) <==> kind in parts
    ensures parts != [] ==> FirstSeen(parts) != []
  {
    if parts != [] {
      var n := |parts| - 1;
      FirstSeenAreSeen(parts[..n]);
      assert parts == parts[..n] + [parts[n]];
    }
  }

  lemma BadgesCount(parts: seq<Kind>)
    requires parts != []
    ensures BadgesOf(parts) != [] && forall badge :: badge in BadgesOf(parts) ==> badge.count > 0
  {
    FirstSeenAreSeen(parts);
    forall badge | badge in BadgesOf(parts)
      ensures badge.count > 0
    {
      assert badge.kind in FirstSeen(parts);
    }
  }

  // ------------------------------------------------------- finding the note

  /** The only match's bracket is the printed one, and the match starts in the newlines before it. */
  lemma NoteFound(head: string, note: string)
    requires IsNote(note)
    ensures var s, i := head + "[" + note + "]", FindNote(head + "[" + note + "]");
            0 <= i <= |head| && NewlinesEnd(s, i) == |head| && s[|head| + 1..|s| - 1] == note && s[..i] == head[..i] &&
            forall k :: i <= k < |head| ==> head[k] == '\n'
  {
    hide IsNote, NewlinesEnd, FindNote;
    var s, p := head + "[" + note + "]", |head|;
    assert s[p] == '[' && s[p + 1..|s| - 1] == note;
    assert NoteAt(s, p);
    var i := FindNote(s);
    var j := NewlinesEnd(s, i);
    BracketIsPrinted(head, note, j);
    forall k | i <= k < p
      ensures head[k] == '\n'
    {
      assert s[k] == head[k];
    }
  }

  lemma BracketIsPrinted(head: string, note: string, j: nat)
    requires IsNote(note)
    requires var s := head + "[" + note + "]"; j + 1 < |s| && s[j] == '[' && IsNote(s[j + 1..|s| - 1])
    ensures j == |head|
  {
    hide IsNote;
    var s, p := head + "[" + note + "]", |head|;
    NoBracketInNote(note);
    NoBracketInNote(s[j + 1..|s| - 1]);
    var inside := s[j + 1..|s| - 1];
    assert forall k :: j < k < |s| - 1 ==> s[k] == inside[k - j - 1];
    assert forall k :: p < k < |s| - 1 ==> s[k] == note[k - p - 1];
    assert s[p] == '[' && (forall k :: 0 <= k < |inside| ==> inside[k] != '[');
  }

  /** Trailing whitespace does not change what is left without it. */
  lemma TrimEndPrefix(s: string, k: nat)
    requires k <= |s| && forall i :: k <= i < |s| ==> IsSpace(s[i])
    ensures TrimEnd(s) == TrimEnd(s[..k])
  {
    var t := s[..k];
    assert TrimmedLength(s) <= k;
    assert TrimmedLength(t) == TrimmedLength(s) by {
      if 0 < TrimmedLength(s) {
        assert t[TrimmedLength(s) - 1] == s[TrimmedLength(s) - 1];
      }
      if 0 < TrimmedLength(t) {
        assert t[TrimmedLength(t) - 1] == s[TrimmedLength(t) - 1];
      }
    }
  }

  // --------------------------------------------------------------- round trip

  /** What stripping does to a message with the note behind it. */
  lemma Stripped(message: string, tail: string)
    requires Trim(message) != "" && tail != "" && !IsSpace(tail[|tail| - 1])
    ensures Trim(message + tail) == TrimStart(message) + tail
  {
    var s, k := message + tail, Indent(message);
    assert k == |message| ==> TrimStart(message) == "";
    assert forall i :: 0 <= i < k ==> s[i] == message[i];
    assert s[k] == message[k];
    assert Indent(s) == k;
    var t := s[k..];
    assert t == message[k..] + tail;
    assert t[|t| - 1] == tail[|tail| - 1] && TrimmedLength(t) == |t|;
    assert t[..|t|] == t;
  }

  lemma ParsedNote(head: string, badges: seq<Badge>)
    requires badges != [] && forall badge :: badge in badges ==> badge.count > 0
    ensures Parse(head + Bracketed(badges)) == Parsed(TrimEnd(head), badges)
  {
    hide IndexOf, SplitOn, Join, IsTag, IsNote, BadgesIn, NewlinesEnd, FindNote, TrimEnd;
    var note := Join(Tags(badges), ", ");
    NoteIsNote(badges);
    assert head + Bracketed(badges) == head + "[" + note + "]";
    NoteFound(head, note);
    TrimEndPrefix(head, FindNote(head + "[" + note + "]"));
  }

  /** The browser reads back the trimmed message and every kind's count, in the order the kinds first came. */
  lemma TranscriptParsed(message: string, parts: seq<Kind>)
    requires parts != []
    ensures Parse(Transcript(message, parts)) == Parsed(Trim(message), BadgesOf(parts))
  {
    hide Parse, Bracketed, Trim, TrimEnd;
    var badges := BadgesOf(parts);
    BadgesCount(parts);
    if Trim(message) == "" {
      ParsedNote("", badges);
      assert "" + Bracketed(badges) == Bracketed(badges);
      NothingTrimmed();
    } else {
      var head, tail := TrimStart(message) + "\n\n", "\n\n" + Bracketed(badges);
      BracketCloses(badges);
      Stripped(message, tail);
      assert message + tail == message + "\n\n" + Bracketed(badges);
      assert TrimStart(message) + tail == head + Bracketed(badges);
      ParsedNote(head, badges);
      TrimEndPrefix(head, |TrimStart(message)|);
      assert head[..|TrimStart(message)|] == TrimStart(message);
      TrimIsBoth(message);
    }
  }

  lemma NothingTrimmed()
    ensures TrimEnd("") == ""
  {
  }

  lemma TrimIsBoth(s: string)
    ensures Trim(s) == TrimEnd(TrimStart(s))
  {
  }

  lemma BracketCloses(badges: seq<Badge>)
    ensures Bracketed(badges) != "" && Bracketed(badges)[|Bracketed(badges)| - 1] == ']'
  {
  }

  /** A message without attachments comes back untouched exactly when it does not itself end in a note. */
  lemma PlainMessageIff(message: string)
    ensures Parse(Transcript(message, [])) == Parsed(message, []) <==> FindNote(message) == -1
  {
    hide BadgeIn, NewlinesEnd, FindNote, TrimEnd, IndexOf;
    var i := FindNote(message);
    if i != -1 {
      var note := message[NewlinesEnd(message, i) + 1..|message| - 1];
      assert Parse(message).badges == BadgesIn(SplitOn(note, ", ")) != [];
    }
  }

  lemma OneImage()
    ensures Bracketed(BadgesOf([Image])) == "[1 image attachment]"
  {
    hide Tag, Decimal, FirstSeen, BadgesOf;
    OneImageBadge();
    OneImageTag();
    assert Tags([Badge(Image, 1)]) == ["1 image attachment"];
    assert "[" + "1 image attachment" + "]" == "[1 image attachment]";
  }

  lemma OneImageBadge()
    ensures BadgesOf([Image]) == [Badge(Image, 1)]
  {
    assert [Image][..0] == [];
  }

  lemma OneImageTag()
    ensures Tag(Badge(Image, 1)) == "1 image attachment"
  {
    assert Decimal(1) == "1";
  }

  /** A typed note is taken for an attachment that was never sent. */
  lemma TypedNoteIsTaken()
    ensures Transcript("[1 image attachment]", []) == Transcript("", [Image])
    ensures Parse(Transcript("[1 image attachment]", [])).badges == BadgesOf([Image]) != []
  {
    hide Parse, Bracketed;
    NothingTrimmed();
    OneImage();
    TranscriptParsed("", [Image]);
    BadgesCount([Image]);
  }

  /** The kinds are listed once each, and a kind only after those that were seen before it. */
  lemma {:induction false} FirstSeenInOrder(parts: seq<Kind>, i: nat, j: nat, k: nat)
    requires i < j < |FirstSeen(parts)| && k < |parts| && parts[k] == FirstSeen(parts)[j]
    ensures FirstSeen(parts)[i] != FirstSeen(parts)[j] && FirstSeen(parts)[i] in parts[..k]
  {
    var n, before := |parts| - 1, FirstSeen(parts[..|parts| - 1]);
    FirstSeenAreSeen(parts[..n]);
    if j < |before| {
      assert before[j] in parts[..n];
      var m :| 0 <= m < n && parts[m] == before[j] && (k < n ==> m == k);
      FirstSeenInOrder(parts[..n], i, j, m);
      assert parts[..n][..m] == parts[..m];
    }
    if k == n {
      assert before[i] in parts[..n];
    } else {
      assert parts[k] == parts[..n][k];
    }
  }

  // --------------------------------------------------------- what is counted

  function PartsOf(parts: seq<Kind>, kind: Kind): set<nat> {
    set k | 0 <= k < |parts| && parts[k] == kind
  }

  lemma {:induction false} CountIs(parts: seq<Kind>, kind: Kind)
    ensures multiset(parts)[kind] == |PartsOf(parts, kind)|
  {
    if parts == [] {
      assert PartsOf(parts, kind) == {};
    } else {
      var n := |parts| - 1;
      CountIs(parts[..n], kind);
      assert parts == parts[..n] + [parts[n]];
      assert PartsOf(parts, kind) == PartsOf(parts[..n], kind) + if parts[n] == kind then {n} else {};
    }
  }

  /** One badge for every kind sent, and its count is the number of attachments of that kind. */
  lemma BadgesAre(parts: seq<Kind>)
    ensures forall kind :: kind in parts <==> exists i :: 0 <= i < |BadgesOf(parts)| && BadgesOf(parts)[i].kind == kind
    ensures forall i, j :: 0 <= i < j < |BadgesOf(parts)| ==> BadgesOf(parts)[i].kind != BadgesOf(parts)[j].kind
    ensures forall i :: 0 <= i < |BadgesOf(parts)| ==>
              BadgesOf(parts)[i].count == |PartsOf(parts, BadgesOf(parts)[i].kind)|
  {
    var badges, kinds := BadgesOf(parts), FirstSeen(parts);
    FirstSeenAreSeen(parts);
    assert forall i :: 0 <= i < |badges| ==> badges[i] == Badge(kinds[i], multiset(parts)[kinds[i]]);
    hide FirstSeen, BadgesOf, PartsOf;
    forall kind | kind in parts
      ensures exists i :: 0 <= i < |badges| && badges[i].kind == kind
    {
      var i :| 0 <= i < |kinds| && kinds[i] == kind;
      assert badges[i].kind == kind;
    }
    forall i | 0 <= i < |badges|
      ensures badges[i].count == |PartsOf(parts, badges[i].kind)| && badges[i].kind in parts
    {
      CountIs(parts, kinds[i]);
      assert kinds[i] in kinds;
    }
    forall i, j | 0 <= i < j < |badges|
      ensures badges[i].kind != badges[j].kind
    {
      assert kinds[j] in kinds;
      var k :| 0 <= k < |parts| && parts[k] == kinds[j];
      FirstSeenInOrder(parts, i, j, k);
    }
  }

  // ---------------------------------------------------------- the words used

  /** A number's last digit, and the number before it. */
  lemma NumberIs(digits: string, last: char)
    requires IsDigit(last) && forall i :: 0 <= i < |digits| ==> IsDigit(digits[i])
    ensures Number("") == 0 && Number(digits + [last]) == 10 * Number(digits) + (last as int - '0' as int)
  {
    assert (digits + [last])[..|digits|] == digits;
  }

  /** A tag is written `2 image attachments`, with the plural for any count past one. */
  lemma TagIs(badge: Badge)
    ensures Tag(badge) == Decimal(badge.count) +
                          match badge.kind
                          case Image => if badge.count <= 1 then " image attachment" else " image attachments"
                          case Audio => if badge.count <= 1 then " audio attachment" else " audio attachments"
  {
    assert " image attachment" == " " + "image" + " attachment" + "";
    assert " image attachments" == " " + "image" + " attachment" + "s";
    assert " audio attachment" == " " + "audio" + " attachment" + "";
    assert " audio attachments" == " " + "audio" + " attachment" + "s";
    var digits := Decimal(badge.count);
    assert digits + " " + Name(badge.kind) + " attachment" + (if badge.count > 1 then "s" else "") ==
           digits + (" " + Name(badge.kind) + " attachment" + if badge.count > 1 then "s" else "");
  }

  /** What is stored: the message without whitespace in front, a blank line, and the tags between brackets, if any. */
  lemma TranscriptIs(message: string, parts: seq<Kind>)
    ensures parts == [] ==> Transcript(message, parts) == message
    ensures parts != [] ==>
              var note := "[" + Join(Tags(BadgesOf(parts)), ", ") + "]";
              Transcript(message, parts) == if Trim(message) == "" then note else TrimStart(message) + "\n\n" + note
  {
    if parts != [] && Trim(message) != "" {
      var note := Bracketed(BadgesOf(parts));
      hide Trim, TrimStart, Bracketed;
      BracketCloses(BadgesOf(parts));
      Stripped(message, "\n\n" + note);
      assert message + "\n\n" + note == message + ("\n\n" + note);
      assert TrimStart(message) + "\n\n" + note == TrimStart(message) + ("\n\n" + note);
    }
  }

  /** What the browser's expression finds from `i` to the end: line feeds, and tags between brackets. */
  lemma NoteAtIs(s: string, i: nat) returns (j: nat, tags: seq<string>)
    requires i <= |s|
    ensures i <= j <= |s| && forall k :: i <= k < j ==> s[k] == '\n'
    ensures NoteAt(s, i) ==>
              s[j..] == "[" + Join(tags, ", ") + "]" && tags != [] && forall tag :: tag in tags ==> IsTag(tag)
  {
    j := NewlinesEnd(s, i);
    tags := [""];
    if NoteAt(s, i) {
      var inside := s[j + 1..|s| - 1];
      tags := SplitOn(inside, ", ");
      SplitOnIs(inside, ", ");
      assert s[j..] == "[" + inside + "]";
    }
  }

  /** Wherever line feeds and such tags between brackets end the text, the expression matches. */
  lemma NoteAtIf(s: string, i: nat, j: nat, tags: seq<string>)
    requires i <= j <= |s| && forall k :: i <= k < j ==> s[k] == '\n'
    requires s[j..] == "[" + Join(tags, ", ") + "]" && tags != [] && forall tag :: tag in tags ==> IsTag(tag)
    ensures NoteAt(s, i)
  {
    hide IsTag, SplitOn;
    forall k | 0 <= k < |tags|
      ensures ',' !in tags[k]
    {
      NoCommaInTag(tags[k]);
    }
    SplitOnJoin(tags, ", ");
    var inside := Join(tags, ", ");
    assert s[j] == '[' && s[|s| - 1] == ']';
    assert s[j + 1..|s| - 1] == s[j..][1..|s| - j - 1] == inside;
    assert NewlinesEnd(s, i) == j;
  }

  lemma NoCommaInTag(tag: string)
    requires IsTag(tag)
    ensures ',' !in tag
  {
    var n := DigitCount(tag);
    assert tag == tag[..n] + tag[n..];
    assert ',' !in tag[n..];
  }

  /** A tag is digits and then one of four words, read to the end. */
  lemma IsTagIff(s: string, n: nat)
    requires 0 < n <= |s| && (forall i :: 0 <= i < n ==> '0' <= s[i] <= '9') && (n < |s| ==> !('0' <= s[n] <= '9'))
    ensures IsTag(s) <==>
            s[n..] in {" image attachment", " image attachments", " audio attachment", " audio attachments"}
  {
    assert DigitCount(s) == n;
  }
}
