/**
 * The small text helpers of the beatmap parser (src/beatmap_parser.cpp):
 * `parse_section`, `maybe_parse_utfheader`, the `'\0'`-stripping lambda of
 * `parse_impl`, `std::string_view::find` and `std::find` of one character.
 * Bytes of the file are characters with the byte's code.
 */
module ParserText {
  import opened Wrappers

  /** `Beatmap_parser::Section`. */
  datatype Section =
    | General | Editor | Metadata | Difficulty | Events | TimingPoints | Colours | HitObjects
    | NoSection

  /** The header line of each section. */
  function HeaderOf(s: Section): string
  {
    match s
    case General => "[General]"
    case Editor => "[Editor]"
    case Metadata => "[Metadata]"
    case Difficulty => "[Difficulty]"
    case Events => "[Events]"
    case TimingPoints => "[TimingPoints]"
    case Colours => "[Colours]"
    case HitObjects => "[HitObjects]"
    case NoSection => ""
  }

  /** `parse_section`: one of the eight exact header lines, anything else is no section. */
  function SectionOf(line: string): (r: Section)
    ensures r != NoSection ==> HeaderOf(r) == line
  {
    if line == "[General]" then General
    else if line == "[Editor]" then Editor
    else if line == "[Metadata]" then Metadata
    else if line == "[Difficulty]" then Difficulty
    else if line == "[Events]" then Events
    else if line == "[TimingPoints]" then TimingPoints
    else if line == "[Colours]" then Colours
    else if line == "[HitObjects]" then HitObjects
    else NoSection
  }

  /** Every section is recognised from its own header line, and from no other line. */
  lemma SectionOfHeader(s: Section, line: string)
    requires s != NoSection
    ensures SectionOf(line) == s <==> line == HeaderOf(s)
  {
    if line == HeaderOf(s) {
      match s
      case General =>
      case Editor =>
      case Metadata =>
      case Difficulty =>
      case Events =>
      case TimingPoints =>
      case Colours =>
      case HitObjects =>
    }
  }

  /** The byte-order marks `maybe_parse_utfheader` looks for, in its order. */
  const Utf32BeMark: string := ['\0', '\0', '\U{FE}', '\U{FF}']
  const Utf32LeMark: string := ['\U{FF}', '\U{FE}', '\0', '\0']
  const Utf16BeMark: string := ['\U{FE}', '\U{FF}']
  const Utf16LeMark: string := ['\U{FF}', '\U{FE}']
  const UtfMarks: seq<string> := [Utf32BeMark, Utf32LeMark, Utf16BeMark, Utf16LeMark]

  /** `matches_header`: a mark no longer than the header that equals the header's start. */
  predicate MatchesHeader(header: string, mark: string)
  {
    |mark| <= |header| && mark == header[..|mark|]
  }

  /** `std::find_if` over the marks from position `i` on: is one of them matched? */
  function AnyMatchFrom(header: string, marks: seq<string>, i: nat): (r: bool)
    requires i <= |marks|
    ensures r <==> exists k :: i <= k < |marks| && MatchesHeader(header, marks[k])
    decreases |marks| - i
  {
    if i == |marks| then false
    else MatchesHeader(header, marks[i]) || AnyMatchFrom(header, marks, i + 1)
  }

  /**
   * `maybe_parse_utfheader`: the first (at most four) characters of the
   * line are copied out and compared with each mark.
   */
  function IsUtfHeader(line: string): bool
  {
    var header := line[..if |line| < 4 then |line| else 4];
    AnyMatchFrom(header, UtfMarks, 0)
  }

  /** The first line is taken as UTF-16/32 exactly when it starts with one of the four marks. */
  lemma UtfHeaderIff(line: string)
    ensures IsUtfHeader(line) <==>
      Utf32BeMark <= line || Utf32LeMark <= line || Utf16BeMark <= line || Utf16LeMark <= line
  {
    var header := line[..if |line| < 4 then |line| else 4];
    forall k | 0 <= k < |UtfMarks|
      ensures MatchesHeader(header, UtfMarks[k]) <==> UtfMarks[k] <= line
    {
      var mark := UtfMarks[k];
      assert |mark| <= 4;
      if |mark| <= |header| {
        assert header[..|mark|] == line[..|mark|];
      }
    }
    assert UtfMarks[0] == Utf32BeMark && UtfMarks[1] == Utf32LeMark;
    assert UtfMarks[2] == Utf16BeMark && UtfMarks[3] == Utf16LeMark;
  }

  /** The line with every `'\0'` taken out, the other characters in order. */
  function RemoveNul(s: string): (r: string)
    ensures |r| <= |s|
  {
    if s == [] then []
    else RemoveNul(s[..|s| - 1]) + (if s[|s| - 1] == '\0' then [] else [s[|s| - 1]])
  }

  predicate NulFree(s: string)
  {
    forall i :: 0 <= i < |s| ==> s[i] != '\0'
  }

  /** No `'\0'` is left, and a line without one is unchanged. */
  lemma {:induction false} RemoveNulSpec(s: string)
    ensures NulFree(RemoveNul(s))
    ensures NulFree(s) ==> RemoveNul(s) == s
  {
    if s != [] {
      var init := s[..|s| - 1];
      RemoveNulSpec(init);
      assert NulFree(s) ==> NulFree(init) by {
        if NulFree(s) {
          forall i | 0 <= i < |init| ensures init[i] != '\0' {
            assert init[i] == s[i];
          }
        }
      }
      assert NulFree(s) ==> s == init + [s[|s| - 1]];
    }
  }

  /** Stripping works piece by piece, so a line can be stripped in any split. */
  lemma {:induction false} RemoveNulAppend(a: string, b: string)
    ensures RemoveNul(a + b) == RemoveNul(a) + RemoveNul(b)
    decreases |b|
  {
    if b != [] {
      var init := b[..|b| - 1];
      assert (a + b)[..|a + b| - 1] == a + init;
      assert (a + b)[|a + b| - 1] == b[|b| - 1];
      RemoveNulAppend(a, init);
    } else {
      assert a + b == a;
    }
  }

  /** The count of characters kept: every character that is not `'\0'`. */
  lemma {:induction false} RemoveNulKeepsOthers(s: string, c: char)
    requires c != '\0'
    ensures multiset(RemoveNul(s))[c] == multiset(s)[c]
    ensures multiset(RemoveNul(s))['\0'] == 0
  {
    if s != [] {
      var init := s[..|s| - 1];
      RemoveNulKeepsOthers(init, c);
      assert s == init + [s[|s| - 1]];
    }
  }

  /** The stripping lambda: `std::remove_copy(s, back_inserter(line), '\0')`. */
  method StripNul(s: string) returns (r: string)
    ensures r == RemoveNul(s)
  {
    r := [];
    var i := 0;
    while i < |s|
      invariant 0 <= i <= |s|
      invariant r == RemoveNul(s[..i])
    {
      assert s[..i + 1][..i] == s[..i];
      if s[i] != '\0' {
        r := r + [s[i]];
      }
      i := i + 1;
    }
    assert s[..|s|] == s;
  }

  /** `p` occurs in `s` at position `k`. */
  predicate OccursAt(s: string, p: string, k: nat)
  {
    k + |p| <= |s| && s[k..k + |p|] == p
  }

  /** `s.find(p, at)`: the first position from `at` on where `p` occurs. */
  function FindFrom(s: string, p: string, at: nat): (r: Option<nat>)
    ensures r.Some? ==> at <= r.value && OccursAt(s, p, r.value)
    ensures forall j :: at <= j && (r.None? || j < r.value) ==> !OccursAt(s, p, j)
    decreases |s| - at
  {
    if at + |p| > |s| then None
    else if s[at..at + |p|] == p then Some(at)
    else FindFrom(s, p, at + 1)
  }

  function Find(s: string, p: string): (r: Option<nat>)
  {
    FindFrom(s, p, 0)
  }

  /** `std::find(first, last, c)` as an index: the first position holding `c`. */
  function IndexOf(s: string, c: char): (r: Option<nat>)
    ensures r.Some? ==> r.value < |s| && s[r.value] == c
    ensures forall j :: 0 <= j < |s| && (r.None? || j < r.value) ==> s[j] != c
  {
    if s == [] then None
    else if s[0] == c then Some(0)
    else match IndexOf(s[1..], c)
      case None => None
      case Some(k) => Some(k + 1)
  }

  /** `std::find` written out as its loop. */
  method FindChar(s: string, c: char) returns (r: Option<nat>)
    ensures r == IndexOf(s, c)
  {
    var i := 0;
    while i < |s| && s[i] != c
      invariant 0 <= i <= |s|
      invariant IndexOf(s, c) == (match IndexOf(s[i..], c) case None => None case Some(k) => Some(k + i))
    {
      assert s[i..][1..] == s[i + 1..];
      i := i + 1;
    }
    r := if i == |s| then None else Some(i);
  }
}
