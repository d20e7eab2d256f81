/**
 * The string primitives the pages rely on: `toLowerCase` (over ASCII),
 * `includes`, `trim`, `split(" ")`/`join` and the initials shown in avatars.
 */
module Text {

  // ---------------------------------------------------------------- lowercase

  /** `c` mapped to lower case when it is an ASCII capital letter. */
  function LowerChar(c: char): (r: char)
    ensures 'A' <= c <= 'Z' ==> r as int == c as int - 'A' as int + 'a' as int && 'a' <= r <= 'z'
    ensures !('A' <= c <= 'Z') ==> r == c
  {
    if 'A' <= c <= 'Z' then (c as int - 'A' as int + 'a' as int) as char else c
  }

  /** `String.prototype.toLowerCase`, restricted to ASCII letters. */
  function ToLower(s: string): (r: string)
    ensures |r| == |s|
    ensures forall i :: 0 <= i < |s| ==> r[i] == LowerChar(s[i])
  {
    if s == [] then [] else [LowerChar(s[0])] + ToLower(s[1..])
  }

  // ------------------------------------------------------------------ includes

  /** `t` occurs in `s` at position `i`. */
  ghost predicate OccursAt(s: string, t: string, i: int) {
    0 <= i && i + |t| <= |s| && s[i..i + |t|] == t
  }

  /** `t` occurs somewhere in `s`. */
  ghost predicate Occurs(s: string, t: string) {
    exists i :: OccursAt(s, t, i)
  }

  /** `s.includes(t)`: the needle is a prefix of some suffix of the haystack. */
  predicate Contains(s: string, t: string)
    ensures Contains(s, t) ==> |t| <= |s|
    ensures t == [] ==> Contains(s, t)
    decreases |s|
  {
    |t| <= |s| && (t == s[..|t|] || Contains(s[1..], t))
  }

  /** `Contains` holds exactly when `t` occurs somewhere in `s`. */
  lemma {:induction false} ContainsIffOccurs(s: string, t: string)
    ensures Contains(s, t) <==> exists i :: OccursAt(s, t, i)
    decreases |s|
  {
    if |t| <= |s| {
      if t == s[..|t|] {
        assert OccursAt(s, t, 0);
      } else {
        ContainsIffOccurs(s[1..], t);
        forall i | OccursAt(s[1..], t, i) ensures OccursAt(s, t, i + 1) {
          assert s[i + 1..i + 1 + |t|] == s[1..][i..i + |t|];
        }
        forall i | OccursAt(s, t, i) ensures OccursAt(s[1..], t, i - 1) {
          assert s[1..][i - 1..i - 1 + |t|] == s[i..i + |t|];
        }
      }
    }
  }

  /** Every string includes the empty string. */
  lemma ContainsEmpty(s: string)
    ensures Contains(s, "")
  {
  }

  // ---------------------------------------------------------------------- trim

  /**
   * The characters `String.prototype.trim` strips: the ECMAScript WhiteSpace
   * (tab, vertical tab, form feed, space, no-break space, byte order mark and
   * the other space separators) and LineTerminator code points.
   */
  predicate IsWhitespace(c: char) {
    || c == '\t' || c == '\n' || c == '\U{000B}' || c == '\U{000C}' || c == '\r'
    || c == ' ' || c == '\U{00A0}' || c == '\U{1680}'
    || ('\U{2000}' <= c <= '\U{200A}')
    || c == '\U{2028}' || c == '\U{2029}' || c == '\U{202F}' || c == '\U{205F}'
    || c == '\U{3000}' || c == '\U{FEFF}'
  }

  /** Every character of `s` is whitespace (so `s.trim()` is empty and falsy). */
  predicate IsBlank(s: string) {
    forall i :: 0 <= i < |s| ==> IsWhitespace(s[i])
  }

  function TrimStart(s: string): (r: string)
    ensures |r| <= |s| && r == s[|s| - |r|..]
    ensures r == [] || !IsWhitespace(r[0])
    ensures IsBlank(s[..|s| - |r|])
  {
    if s != [] && IsWhitespace(s[0]) then TrimStart(s[1..]) else s
  }

  function TrimEnd(s: string): (r: string)
    ensures |r| <= |s| && r == s[..|r|]
    ensures r == [] || !IsWhitespace(r[|r| - 1])
    ensures IsBlank(s[|r|..])
  {
    if s != [] && IsWhitespace(s[|s| - 1]) then TrimEnd(s[..|s| - 1]) else s
  }

  /** `s.trim()`: the slice of `s` left after removing whitespace from both ends; it neither starts nor ends with whitespace. */
  function Trim(s: string): (r: string)
    ensures exists i :: OccursAt(s, r, i) && IsBlank(s[..i]) && IsBlank(s[i + |r|..])
    ensures r == [] || (!IsWhitespace(r[0]) && !IsWhitespace(r[|r| - 1]))
  {
    var t := TrimStart(s);
    var r := TrimEnd(t);
    PrefixOfSuffix(s, t, r);
    var i := |s| - |t|;
    assert IsBlank(s[..i]) && IsBlank(s[i + |r|..]);
    r
  }

  /** A prefix `r` of a suffix `t` of `s` occurs in `s` where `t` starts; what follows it in `s` is what follows it in `t`. */
  lemma PrefixOfSuffix(s: string, t: string, r: string)
    requires |t| <= |s| && t == s[|s| - |t|..]
    requires |r| <= |t| && r == t[..|r|]
    ensures OccursAt(s, r, |s| - |t|)
    ensures s[|s| - |t| + |r|..] == t[|r|..]
    ensures r != [] ==> r[0] == t[0]
  {
    assert s[|s| - |t|..|s| - |t| + |r|] == t[..|r|];
  }

  /** `s.trim()` is empty exactly when `s` is blank: this is what the forms' required-field checks test. */
  lemma TrimEmptyIffBlank(s: string)
    ensures Trim(s) == [] <==> IsBlank(s)
  {
    if Trim(s) == [] {
      var t := TrimStart(s);
      assert IsBlank(t[0..]);
      assert s == s[..|s| - |t|];
    }
  }

  // ------------------------------------------------------------- split / join

  /** `s.split(" ")`: the maximal space-free segments, empty ones included; never an empty list, and no segment holds a space. */
  function Split(s: string): (r: seq<string>)
    ensures |r| >= 1
    ensures forall k :: 0 <= k < |r| ==> ' ' !in r[k]
  {
    if s == [] then [""]
    else
      var rest := Split(s[1..]);
      if s[0] == ' ' then [""] + rest
      else
        var r := [[s[0]] + rest[0]] + rest[1..];
        assert forall k :: 0 < k < |r| ==> r[k] == rest[k];
        r
  }

  /** `ws.join(" ")`. */
  function Join(ws: seq<string>): (r: string)
    requires |ws| >= 1
    decreases |ws|
  {
    if |ws| == 1 then ws[0] else ws[0] + " " + Join(ws[1..])
  }

  /** Splitting on spaces loses nothing: joining the segments back with spaces gives the original string. */
  lemma {:induction false} SplitJoin(s: string)
    ensures Join(Split(s)) == s
  {
    if s != [] {
      SplitJoin(s[1..]);
      var rest := Split(s[1..]);
      if s[0] == ' ' {
        assert Split(s) == [""] + rest;
      } else {
        JoinPrependChar(s[0], rest);
      }
      assert s == [s[0]] + s[1..];
    }
  }

  /** Prepending a character to the first segment prepends it to the joined string. */
  lemma {:induction false} JoinPrependChar(c: char, ws: seq<string>)
    requires |ws| >= 1
    ensures Join([[c] + ws[0]] + ws[1..]) == [c] + Join(ws)
  {
    var v := [[c] + ws[0]] + ws[1..];
    assert |v| == |ws| && v[0] == [c] + ws[0];
    if |ws| > 1 {
      assert v[1..] == ws[1..];
    }
  }

  // ------------------------------------------------------------------ initials

  /** `n[0]` of each segment, where `undefined` (an empty segment) joins as nothing. */
  function FirstChars(ws: seq<string>): (r: string)
    ensures |r| <= |ws|
  {
    if ws == [] then ""
    else (if ws[0] == "" then "" else [ws[0][0]]) + FirstChars(ws[1..])
  }

  /** `name.split(" ").map((n) => n[0]).join("")`. */
  function Initials(name: string): (r: string)
    ensures r == WordStarts(name, true)
  {
    InitialsAreWordStarts(name);
    FirstChars(Split(name))
  }

  /**
   * Reference definition of the initials: each character that is not a space
   * and starts the string or follows a space. `atStart` says whether the
   * character before `s` was a space (or there was none).
   */
  function WordStarts(s: string, atStart: bool): (r: string)
    ensures |r| <= |s|
  {
    if s == [] then ""
    else (if atStart && s[0] != ' ' then [s[0]] else "") + WordStarts(s[1..], s[0] == ' ')
  }

  /** The initials are the first character of every space-separated word, in order; repeated spaces add nothing. */
  lemma {:induction false} InitialsAreWordStarts(name: string)
    ensures FirstChars(Split(name)) == WordStarts(name, true)
    ensures FirstChars(Split(name)[1..]) == WordStarts(name, false)
  {
    if name != [] {
      InitialsAreWordStarts(name[1..]);
      var rest := Split(name[1..]);
      var ws := Split(name);
      if name[0] == ' ' {
        assert ws == [""] + rest;
        assert ws[1..] == rest;
      } else {
        assert ws == [[name[0]] + rest[0]] + rest[1..];
        assert ws[1..] == rest[1..];
      }
    }
  }
}
