/** The testimonial card's derived values (`src/components/TestimonialCard.tsx`):
    the avatar initials `name.split(" ").map(n => n[0]).join("")` and the
    guard on the author's role line. */
module TestimonialCard {
  import opened Values

  /** `s.split(" ")`: the pieces between single spaces, empty ones included. */
  function Split(s: string): (parts: seq<string>)
    ensures |parts| >= 1
    ensures forall k :: 0 <= k < |parts| ==> ' ' !in parts[k]
  {
    if s == [] then [[]]
    else
      var rest := Split(s[1..]);
      if s[0] == ' ' then [[]] + rest
      else [[s[0]] + rest[0]] + rest[1..]
  }

  /** `parts.join(" ")`. */
  function JoinWithSpaces(parts: seq<string>): string
    requires |parts| >= 1
  {
    if |parts| == 1 then parts[0] else parts[0] + [' '] + JoinWithSpaces(parts[1..])
  }

  /** Splitting loses nothing: joining the pieces again gives back the name. */
  lemma {:induction false} SplitJoinRoundTrip(s: string)
    ensures JoinWithSpaces(Split(s)) == s
  {
    if s != [] {
      SplitJoinRoundTrip(s[1..]);
      var rest := Split(s[1..]);
      if s[0] == ' ' {
        assert Split(s)[1..] == rest;
      } else {
        var parts := Split(s);
        assert parts[0] == [s[0]] + rest[0];
        assert parts[1..] == rest[1..];
        if |rest| > 1 {
          assert JoinWithSpaces(rest) == rest[0] + [' '] + JoinWithSpaces(rest[1..]);
        }
      }
    }
  }

  /** `n[0]` joined in: the first character, or nothing for an empty piece
      (`undefined` joins as the empty string). */
  function FirstChar(piece: string): (r: string)
    ensures |r| <= 1 && (r == [] <==> piece == [])
  {
    if piece == [] then [] else [piece[0]]
  }

  /** The number of non-empty pieces. */
  function NonEmptyCount(parts: seq<string>): nat
  {
    if parts == [] then 0 else (if parts[0] == [] then 0 else 1) + NonEmptyCount(parts[1..])
  }

  /** `.map(n => n[0]).join("")`: one character for each non-empty piece. */
  function JoinFirstChars(parts: seq<string>): (r: string)
    ensures |r| == NonEmptyCount(parts) <= |parts|
  {
    if parts == [] then [] else FirstChar(parts[0]) + JoinFirstChars(parts[1..])
  }

  /** An independent reading of the initials: scanning the name once, keep each
      character that is not a space and follows a space or the start. */
  function ScanInitials(s: string, atStart: bool): string
  {
    if s == [] then []
    else if s[0] == ' ' then ScanInitials(s[1..], true)
    else (if atStart then [s[0]] else []) + ScanInitials(s[1..], false)
  }

  /** The avatar fallback text: exactly the characters that begin a
      space-separated word, in order, and never longer than the name. */
  function Initials(name: string): (r: string)
    ensures r == ScanInitials(name, true)
    ensures |r| <= |name|
  {
    ScanMatchesSplit(name);
    NonEmptyCountOfSplit(name);
    JoinFirstChars(Split(name))
  }

  lemma {:induction false} JoinFirstCharsAppend(a: seq<string>, b: seq<string>)
    ensures JoinFirstChars(a + b) == JoinFirstChars(a) + JoinFirstChars(b)
  {
    if a != [] {
      JoinFirstCharsAppend(a[1..], b);
      assert (a + b)[0] == a[0] && (a + b)[1..] == a[1..] + b;
    } else {
      assert a + b == b;
    }
  }

  lemma {:induction false} ScanMatchesSplit(s: string)
    ensures ScanInitials(s, true) == JoinFirstChars(Split(s))
    ensures ScanInitials(s, false) == JoinFirstChars(Split(s)[1..])
  {
    if s != [] {
      ScanMatchesSplit(s[1..]);
      var rest := Split(s[1..]);
      if s[0] == ' ' {
        assert Split(s) == [[]] + rest;
        JoinFirstCharsAppend([[]], rest);
        assert Split(s)[1..] == rest;
      } else {
        assert Split(s) == [[s[0]] + rest[0]] + rest[1..];
        JoinFirstCharsAppend([[s[0]] + rest[0]], rest[1..]);
        assert Split(s)[1..] == rest[1..];
        assert rest == [rest[0]] + rest[1..];
        JoinFirstCharsAppend([rest[0]], rest[1..]);
      }
    }
  }

  lemma {:induction false} NonEmptyCountOfSplit(s: string)
    ensures NonEmptyCount(Split(s)) <= |s|
  {
    if s != [] {
      NonEmptyCountOfSplit(s[1..]);
      var rest := Split(s[1..]);
      if s[0] == ' ' {
        assert Split(s)[1..] == rest;
      } else {
        assert Split(s)[1..] == rest[1..];
        assert rest == [rest[0]] + rest[1..];
      }
    }
  }

  /** A one-word name gives its first character; the empty name gives "". */
  lemma {:induction false} SingleWordInitial(name: string)
    requires ' ' !in name
    ensures Initials(name) == if name == [] then [] else [name[0]]
  {
    SingleWordSplit(name);
    assert [name][1..] == [];
    assert Initials(name) == FirstChar(name) + JoinFirstChars([]);
  }

  lemma {:induction false} SingleWordSplit(name: string)
    requires ' ' !in name
    ensures Split(name) == [name]
  {
    if name != [] {
      SingleWordSplit(name[1..]);
      assert [name[0]] + name[1..] == name;
    }
  }

  /** Two words give two initials. */
  lemma TwoWordExample()
    ensures Initials("Jo Li") == "JL"
  {
    assert ScanInitials("i", false) == [];
    assert ScanInitials("Li", true) == "L";
    assert ScanInitials(" Li", false) == "L";
    assert ScanInitials("o Li", false) == "L";
  }

  /** Leading, trailing and doubled spaces add no initials. */
  lemma ExtraSpacesExample()
    ensures Initials(" A  B ") == "AB"
  {
    assert ScanInitials(" ", false) == [];
    assert ScanInitials("B ", true) == "B";
    assert ScanInitials(" B ", true) == "B";
    assert ScanInitials("  B ", false) == "B";
    assert ScanInitials("A  B ", true) == "AB";
  }

  /** `author.role && ...`: the role line renders exactly when the optional
      role is truthy, that is present and non-empty. */
  function RoleShown(role: Option<string>): (shown: bool)
    ensures shown <==> Truthy(OptionalString(role))
  {
    match role
    case None => false
    case Some(r) => r != ""
  }
}
