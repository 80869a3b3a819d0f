/**
  The player's name: the welcome form trims what was typed, keeps at most 20
  characters and falls back to "Player"; a missing saved name also reads as
  "Player".
 */
module Identity {

  /** The name used when none was given. */
  const DefaultName: string := "Player"

  /** The longest name kept. */
  const MaxNameLength: nat := 20

  /** The characters `String.prototype.trim` removes (white space and line terminators). */
  const WhitespaceChars: string :=
    "\U{0020}\U{0009}\U{000A}\U{000B}\U{000C}\U{000D}\U{00A0}\U{1680}"
    + "\U{2000}\U{2001}\U{2002}\U{2003}\U{2004}\U{2005}\U{2006}\U{2007}"
    + "\U{2008}\U{2009}\U{200A}\U{2028}\U{2029}\U{202F}\U{205F}\U{3000}\U{FEFF}"

  predicate IsWhitespace(c: char) {
    Occurs(c, WhitespaceChars)
  }

  /** `c` is one of `cs`. */
  predicate Occurs(c: char, cs: string)
    decreases |cs|
  {
    cs != [] && (cs[0] == c || Occurs(c, cs[1..]))
  }

  /** The number of white-space characters `s` starts with. */
  function Leading(s: string): (n: nat)
    ensures n <= |s|
    ensures forall k :: 0 <= k < n ==> IsWhitespace(s[k])
    ensures n == |s| || !IsWhitespace(s[n])
  {
    if s != [] && IsWhitespace(s[0]) then
      var n := 1 + Leading(s[1..]);
      assert forall k :: 1 <= k < n ==> s[k] == s[1..][k - 1];
      n
    else 0
  }

  /** The number of white-space characters `s` ends with. */
  function Trailing(s: string): (n: nat)
    ensures n <= |s|
    ensures forall k :: |s| - n <= k < |s| ==> IsWhitespace(s[k])
    ensures n == |s| || !IsWhitespace(s[|s| - n - 1])
  {
    if s != [] && IsWhitespace(s[|s| - 1]) then
      var n := 1 + Trailing(s[..|s| - 1]);
      assert forall k :: |s| - n <= k < |s| - 1 ==> s[k] == s[..|s| - 1][k];
      n
    else 0
  }

  /**
    `s.trim()`: it removes exactly the white space at both ends. The result
    is the part of `s` between its leading white space and a run of white
    space at its end, and it neither starts nor ends with white space.
   */
  function Trim(s: string): (t: string)
    ensures var i := Leading(s);
      && i + |t| <= |s|
      && t == s[i..i + |t|]
      && (forall k :: 0 <= k < i ==> IsWhitespace(s[k]))
      && (forall k :: i + |t| <= k < |s| ==> IsWhitespace(s[k]))
    ensures t == [] || (!IsWhitespace(t[0]) && !IsWhitespace(t[|t| - 1]))
  {
    var i := Leading(s);
    var u := s[i..];
    var t := u[..|u| - Trailing(u)];
    assert t == s[i..i + |t|];
    assert forall k :: i + |t| <= k < |s| ==> s[k] == u[k - i];
    assert t != [] ==> t[0] == u[0];
    t
  }

  /**
    The welcome form: `(value || "").trim().slice(0, 20) || "Player"`. The
    result is never empty and at most 20 characters long; it is "Player"
    when the input is empty or all white space, and otherwise the start of the
    trimmed input.
   */
  function SanitizeName(input: string): (r: string)
    ensures 0 < |r| <= MaxNameLength
    ensures Trim(input) == [] ==> r == DefaultName
    ensures Trim(input) != [] ==> r <= Trim(input) && !IsWhitespace(r[0])
    ensures Trim(input) != [] ==> |r| == if |Trim(input)| < MaxNameLength then |Trim(input)| else MaxNameLength
  {
    var t := Trim(input);
    var kept := if |t| <= MaxNameLength then t else t[..MaxNameLength];
    if kept == [] then DefaultName else kept
  }

  /** `getSavedName() || "Player"`: the name scores are saved under. */
  function PlayerName(saved: string): (r: string)
    ensures r != []
    ensures saved != [] ==> r == saved
    ensures saved == [] ==> r == DefaultName
  {
    if saved == [] then DefaultName else saved
  }
}
