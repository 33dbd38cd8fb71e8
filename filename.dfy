/** sanitize_filename (App_v3.py): strip surrounding whitespace, delete the characters
    that are not allowed in file names, turn each ASCII space into '_', keep at most 50
    characters, and fall back to "Unknown" when nothing is left. */
module Filename {

  /** The characters for which Python's str.isspace() holds; str.strip() with no
      argument removes exactly these from both ends. */
  predicate IsSpace(c: char) {
    var n := c as int;
    (9 <= n <= 13) || (28 <= n <= 32) || n == 0x85 || n == 0xA0 || n == 0x1680 ||
    (0x2000 <= n <= 0x200A) || n == 0x2028 || n == 0x2029 || n == 0x202F ||
    n == 0x205F || n == 0x3000
  }

  /** The nine characters of the class [<>:"/\\|?*]. */
  predicate IsForbidden(c: char) {
    c == '<' || c == '>' || c == ':' || c == '"' || c == '/' || c == '\\' || c == '|' ||
    c == '?' || c == '*'
  }

  const MaxLength: nat := 50
  const Fallback: string := "Unknown"

  /** The number of whitespace characters that start s. */
  function LeadingSpaces(s: string): (n: nat)
    ensures n <= |s|
    ensures forall k :: 0 <= k < n ==> IsSpace(s[k])
    ensures n < |s| ==> !IsSpace(s[n])
  {
    if |s| > 0 && IsSpace(s[0]) then 1 + LeadingSpaces(s[1..]) else 0
  }

  /** The number of whitespace characters that end s. */
  function TrailingSpaces(s: string): (n: nat)
    ensures n <= |s|
    ensures forall k :: |s| - n <= k < |s| ==> IsSpace(s[k])
    ensures n < |s| ==> !IsSpace(s[|s| - 1 - n])
  {
    if |s| > 0 && IsSpace(s[|s| - 1]) then 1 + TrailingSpaces(s[..|s| - 1]) else 0
  }

  /** Python's str.strip(): s without its leading and trailing whitespace. */
  function Strip(s: string): (r: string)
    ensures LeadingSpaces(s) + |r| <= |s| && r == s[LeadingSpaces(s)..LeadingSpaces(s) + |r|]
    ensures forall k :: LeadingSpaces(s) + |r| <= k < |s| ==> IsSpace(s[k])
    ensures r == [] <==> forall k :: 0 <= k < |s| ==> IsSpace(s[k])
    ensures r != [] ==> !IsSpace(r[0]) && !IsSpace(r[|r| - 1])
  {
    var lead := LeadingSpaces(s);
    if lead == |s| then []
    else
      var trail := TrailingSpaces(s);
      assert lead < |s| - trail;
      s[lead..|s| - trail]
  }

  /** re.sub(r'[<>:"/\\|?*]', '', s): s with every forbidden character deleted. */
  function RemoveForbidden(s: string): (r: string)
    ensures |r| <= |s|
    ensures forall k :: 0 <= k < |r| ==> !IsForbidden(r[k])
    ensures (forall k :: 0 <= k < |s| ==> !IsForbidden(s[k])) ==> r == s
    ensures r == [] <==> forall k :: 0 <= k < |s| ==> IsForbidden(s[k])
  {
    if |s| == 0 then []
    else (if IsForbidden(s[0]) then [] else [s[0]]) + RemoveForbidden(s[1..])
  }

  /** s.replace(' ', '_'): only the ASCII space is replaced. */
  function ReplaceSpaces(s: string): (r: string)
    ensures |r| == |s|
    ensures forall k :: 0 <= k < |s| ==> r[k] == if s[k] == ' ' then '_' else s[k]
  {
    if |s| == 0 then [] else [if s[0] == ' ' then '_' else s[0]] + ReplaceSpaces(s[1..])
  }

  /** What is left of text once it is stripped and its forbidden characters are deleted. */
  function Cleaned(text: string): string {
    RemoveForbidden(Strip(text))
  }

  /** The first n characters of t, or all of t when it is shorter. */
  function Truncate(t: string, n: nat): (r: string)
    ensures |r| == (if |t| < n then |t| else n)
    ensures r == t[..|r|]
  {
    if |t| <= n then t else t[..n]
  }

  /** The fallback name is itself a clean name. */
  lemma FallbackClean()
    ensures forall k :: 0 <= k < |Fallback| ==>
              !IsForbidden(Fallback[k]) && Fallback[k] != ' ' && !IsSpace(Fallback[k])
  {
  }

  function Sanitize(text: string): (r: string)
    ensures 1 <= |r| <= MaxLength
    ensures forall k :: 0 <= k < |r| ==> !IsForbidden(r[k]) && r[k] != ' '
    ensures Cleaned(text) == [] ==> r == Fallback
    ensures Cleaned(text) != [] ==>
              |r| == (if |Cleaned(text)| < MaxLength then |Cleaned(text)| else MaxLength) &&
              forall k :: 0 <= k < |r| ==> r[k] == if Cleaned(text)[k] == ' ' then '_' else Cleaned(text)[k]
  {
    var c := Cleaned(text);
    var cut := Truncate(ReplaceSpaces(c), MaxLength);
    if cut == [] then FallbackClean(); Fallback else TruncatedClean(c); cut
  }

  /** Replacing the spaces of a text free of forbidden characters and cutting it leaves
      neither forbidden characters nor spaces. */
  lemma TruncatedClean(c: string)
    requires forall k :: 0 <= k < |c| ==> !IsForbidden(c[k])
    ensures forall k :: 0 <= k < |Truncate(ReplaceSpaces(c), MaxLength)| ==>
              !IsForbidden(Truncate(ReplaceSpaces(c), MaxLength)[k]) && Truncate(ReplaceSpaces(c), MaxLength)[k] != ' '
  {
    var spaced := ReplaceSpaces(c);
    var cut := Truncate(spaced, MaxLength);
    forall k | 0 <= k < |cut|
      ensures !IsForbidden(cut[k]) && cut[k] != ' '
    {
      assert cut[k] == spaced[k];
    }
  }

  lemma StripNoSpace(s: string)
    requires forall k :: 0 <= k < |s| ==> !IsSpace(s[k])
    ensures Strip(s) == s
  {
    if |s| > 0 {
      assert LeadingSpaces(s) == 0;
      assert TrailingSpaces(s) == 0;
    }
  }

  lemma StripIdempotent(s: string)
    ensures Strip(Strip(s)) == Strip(s)
  {
    var r := Strip(s);
    if r != [] {
      assert LeadingSpaces(r) == 0;
      assert TrailingSpaces(r) == 0;
    }
  }

  /** Deleting forbidden characters commutes with concatenation, so it keeps the order
      of the characters it keeps. */
  lemma {:induction false} RemoveForbiddenConcat(a: string, b: string)
    ensures RemoveForbidden(a + b) == RemoveForbidden(a) + RemoveForbidden(b)
  {
    if |a| == 0 {
      assert a + b == b;
    } else {
      assert (a + b)[1..] == a[1..] + b;
      RemoveForbiddenConcat(a[1..], b);
    }
  }

  /** Deleting characters introduces no whitespace other than the ASCII space. */
  lemma {:induction false} RemoveForbiddenKeeps(s: string)
    requires forall k :: 0 <= k < |s| ==> !IsSpace(s[k]) || s[k] == ' '
    ensures forall k :: 0 <= k < |RemoveForbidden(s)| ==>
              !IsSpace(RemoveForbidden(s)[k]) || RemoveForbidden(s)[k] == ' '
  {
    if |s| > 0 {
      RemoveForbiddenKeeps(s[1..]);
    }
  }

  /** A short name with no whitespace, no forbidden character and no space is a fixed point. */
  lemma SanitizeClean(s: string)
    requires 0 < |s| <= MaxLength
    requires forall k :: 0 <= k < |s| ==> !IsSpace(s[k]) && !IsForbidden(s[k]) && s[k] != ' '
    ensures Sanitize(s) == s
  {
    StripNoSpace(s);
    assert RemoveForbidden(s) == s;
    assert ReplaceSpaces(s) == s;
  }

  /** A second pass changes nothing when the only whitespace in the input is the ASCII
      space: the first result then holds no whitespace, no forbidden character, no space
      and at most 50 characters. */
  lemma SanitizeIdempotent(text: string)
    requires forall k :: 0 <= k < |text| && IsSpace(text[k]) ==> text[k] == ' '
    ensures Sanitize(Sanitize(text)) == Sanitize(text)
  {
    var r := Sanitize(text);
    var c := Cleaned(text);
    var st := Strip(text);
    if c == [] {
      FallbackClean();
    } else {
      forall k | 0 <= k < |st|
        ensures !IsSpace(st[k]) || st[k] == ' '
      {
        assert st[k] == text[LeadingSpaces(text) + k];
      }
      RemoveForbiddenKeeps(st);
    }
    SanitizeClean(r);
  }

  /** For a short non-empty cleaned text, the result is that text with its spaces replaced. */
  lemma SanitizeShort(text: string)
    requires 0 < |Cleaned(text)| <= MaxLength
    ensures Sanitize(text) == ReplaceSpaces(Cleaned(text))
  {
  }

  // Single evaluation steps of the examples below, each proved on its own.

  lemma StripTabExamples()
    ensures Strip("?\tx") == "?\tx"
    ensures Strip("\tx") == "x"
  {
    assert LeadingSpaces("?\tx") == 0;
    assert TrailingSpaces("?\tx") == 0;
    assert LeadingSpaces("\tx") == 1;
    assert TrailingSpaces("\tx") == 0;
    assert "\tx"[1..2] == "x";
  }

  lemma RemoveTabExamples()
    ensures RemoveForbidden("?\tx") == "\tx"
    ensures RemoveForbidden("x") == "x"
  {
  }

  lemma ReplaceTabExamples()
    ensures ReplaceSpaces("\tx") == "\tx"
    ensures ReplaceSpaces("x") == "x"
  {
  }

  /** With a tab next to a deleted character the strip of the first pass misses it, and a
      second pass strips it: the result is not stable in general. */
  lemma SanitizeNotIdempotent()
    ensures Sanitize("?\tx") == "\tx"
    ensures Sanitize("\tx") == "x"
  {
    StripTabExamples();
    RemoveTabExamples();
    ReplaceTabExamples();
    SanitizeShort("?\tx");
    SanitizeShort("\tx");
  }

  /** A text with one space at each end and none next to them loses exactly those two. */
  lemma StripOneEach(s: string)
    requires |s| >= 3 && IsSpace(s[0]) && IsSpace(s[|s| - 1]) && !IsSpace(s[1]) && !IsSpace(s[|s| - 2])
    ensures Strip(s) == s[1..|s| - 1]
  {
    assert s[1..][0] == s[1];
    assert LeadingSpaces(s) == 1;
    assert s[..|s| - 1][|s| - 2] == s[|s| - 2];
    assert TrailingSpaces(s) == 1;
  }

  lemma StripOrderExample()
    ensures Strip(" a / b ") == "a / b"
  {
    StripOneEach(" a / b ");
    assert " a / b "[1..6] == "a / b";
  }

  lemma RemoveOrderExample()
    ensures RemoveForbidden("a / b") == "a  b"
  {
  }

  lemma ReplaceOrderExample()
    ensures ReplaceSpaces("a  b") == "a__b"
  {
  }

  /** Stripping comes first, deletion second and space replacement last. */
  lemma SanitizeOrderExample()
    ensures Sanitize(" a / b ") == "a__b"
  {
    StripOrderExample();
    RemoveOrderExample();
    ReplaceOrderExample();
    SanitizeShort(" a / b ");
  }

  lemma InnerTabSteps()
    ensures Strip("a\tb") == "a\tb"
    ensures RemoveForbidden("a\tb") == "a\tb"
    ensures ReplaceSpaces("a\tb") == "a\tb"
  {
    assert LeadingSpaces("a\tb") == 0;
    assert TrailingSpaces("a\tb") == 0;
  }

  /** Only the ASCII space is replaced: an inner tab survives. */
  lemma SanitizeKeepsInnerTab()
    ensures Sanitize("a\tb") == "a\tb"
  {
    InnerTabSteps();
    SanitizeShort("a\tb");
  }

  lemma FallbackSteps()
    ensures Strip(" ?* ") == "?*"
    ensures RemoveForbidden("?*") == []
  {
    StripOneEach(" ?* ");
    assert " ?* "[1..3] == "?*";
  }

  /** An input made only of whitespace and forbidden characters falls back. */
  lemma SanitizeFallbackExample()
    ensures Sanitize(" ?* ") == Fallback
  {
    FallbackSteps();
  }

  lemma JoinedStrip()
    ensures Strip(" a/b:c ") == "a/b:c"
  {
    StripOneEach(" a/b:c ");
    assert " a/b:c "[1..6] == "a/b:c";
  }

  lemma JoinedRemove()
    ensures RemoveForbidden("a/b:c") == "abc"
  {
  }

  lemma JoinedReplace()
    ensures ReplaceSpaces("abc") == "abc"
  {
  }

  /** Deleted characters leave no trace: the pieces they separated are joined. */
  lemma SanitizeJoinsPieces()
    ensures Sanitize(" a/b:c ") == "abc"
  {
    JoinedStrip();
    JoinedRemove();
    JoinedReplace();
    SanitizeShort(" a/b:c ");
  }

  /** An input that cleans to nothing and the literal text "Unknown" give the same name. */
  lemma FallbackCollides()
    ensures Sanitize(" ?* ") == Sanitize("Unknown")
  {
    SanitizeFallbackExample();
    FallbackClean();
    SanitizeClean(Fallback);
  }
}
