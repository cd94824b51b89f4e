/** The pure parts of src/components/Navbar.tsx: `getInitials` (also used, identically, by
    src/components/profile/UserProfileCard.tsx), the fixed navigation links and `isActive`. */
module Navbar {
  import Text

  /** `s.split(' ')`: the pieces between single spaces, empty ones included. */
  function Split(s: string): (parts: seq<string>)
    ensures |parts| >= 1
    ensures forall i :: 0 <= i < |parts| ==> ' ' !in parts[i]
  {
    if s == [] then [""]
    else if s[0] == ' ' then [""] + Split(s[1..])
    else
      var rest := Split(s[1..]);
      [[s[0]] + rest[0]] + rest[1..]
  }

  /** `parts.join(' ')`. */
  function Join(parts: seq<string>): string
    requires |parts| >= 1
  {
    if |parts| == 1 then parts[0] else parts[0] + " " + Join(parts[1..])
  }

  /** Splitting loses nothing: joining the pieces again gives back the name. */
  lemma {:induction false} JoinSplit(s: string)
    ensures Join(Split(s)) == s
  {
    if s == [] {
    } else if s[0] == ' ' {
      JoinSplit(s[1..]);
      assert s == " " + s[1..];
    } else {
      var rest := Split(s[1..]);
      JoinSplit(s[1..]);
      if |rest| == 1 {
        assert s == [s[0]] + rest[0];
      } else {
        assert Join(rest) == rest[0] + " " + Join(rest[1..]);
        assert s == [s[0]] + s[1..];
      }
    }
  }

  /** `parts.map(part => part[0]).join('')`: an empty piece yields `undefined`, which `join`
      writes as nothing. */
  function Heads(parts: seq<string>): (r: string)
    ensures |r| <= |parts|
  {
    if parts == [] then []
    else (if parts[0] == "" then [] else [parts[0][0]]) + Heads(parts[1..])
  }

  /** The reference: the characters of `s` that start a word, scanning left to right;
      `atStart` says whether the previous character was a space (or there was none). */
  function Starts(s: string, atStart: bool): string
  {
    if s == [] then []
    else if s[0] == ' ' then Starts(s[1..], true)
    else (if atStart then [s[0]] else []) + Starts(s[1..], false)
  }

  /** Each space-separated part contributes its first character, in order, and the empty parts
      that repeated, leading or trailing spaces make contribute nothing. */
  lemma {:induction false} HeadsAreWordStarts(s: string)
    ensures Heads(Split(s)) == Starts(s, true)
    ensures Heads(Split(s)[1..]) == Starts(s, false)
  {
    if s == [] {
    } else if s[0] == ' ' {
      HeadsAreWordStarts(s[1..]);
      var parts := Split(s);
      assert parts == [""] + Split(s[1..]);
      assert parts[1..] == Split(s[1..]);
    } else {
      HeadsAreWordStarts(s[1..]);
      var rest := Split(s[1..]);
      var parts := Split(s);
      assert parts == [[s[0]] + rest[0]] + rest[1..];
      assert parts[1..] == rest[1..];
      assert parts[0] != "" && parts[0][0] == s[0];
    }
  }

  /** `getInitials(name)`: the word starts, upper-cased, at most two of them. */
  function Initials(name: string): (r: string)
    ensures |r| <= 2
    ensures forall i :: 0 <= i < |r| ==> !Text.IsLower(r[i])
    ensures r == Text.Prefix(Text.Upper(Starts(name, true)), 2)
  {
    HeadsAreWordStarts(name);
    Text.Prefix(Text.Upper(Heads(Split(name))), 2)
  }

  /** An empty name has no initials. */
  lemma EmptyNameNoInitials()
    ensures Initials("") == ""
  {
  }

  /** A name whose words start with letters shows the first letters of its first two words. */
  lemma InitialsOfTwoWords(first: string, second: string, more: string)
    requires first != "" && second != "" && ' ' !in first && ' ' !in second
    ensures Initials(first + " " + second + more) ==
            [Text.UpperChar(first[0]), Text.UpperChar(second[0])]
  {
    var name := first + " " + second + more;
    StartsOfWord(first, " " + second + more);
    assert name == first + (" " + second + more);
    assert Starts(" " + second + more, false) == Starts(second + more, true) by {
      assert (" " + second + more)[1..] == second + more;
    }
    StartsOfWord(second, more);
    var starts := Starts(name, true);
    assert starts == [first[0]] + ([second[0]] + Starts(more, false));
  }

  /** A word that is followed by `rest` contributes exactly its first character. */
  lemma {:induction false} StartsOfWord(word: string, rest: string)
    requires word != "" && ' ' !in word
    ensures Starts(word + rest, true) == [word[0]] + Starts(rest, false)
  {
    assert (word + rest)[1..] == word[1..] + rest;
    SkipWord(word[1..], rest);
  }

  /** Inside a word nothing starts. */
  lemma {:induction false} SkipWord(tail: string, rest: string)
    requires ' ' !in tail
    ensures Starts(tail + rest, false) == Starts(rest, false)
  {
    if tail != [] {
      assert (tail + rest)[1..] == tail[1..] + rest;
      assert tail[0] in tail;
      SkipWord(tail[1..], rest);
    } else {
      assert tail + rest == rest;
    }
  }

  datatype NavLink = NavLink(path: string, text: string)

  /** `navLinks`. */
  const NavLinks: seq<NavLink> := [
    NavLink("/", "Home"),
    NavLink("/waste", "Waste"),
    NavLink("/flood", "Flood"),
    NavLink("/electricity", "Electricity")]

  /** `isActive(path)`: the current pathname is exactly `path`. */
  predicate IsActive(pathname: string, path: string)
  {
    pathname == path
  }

  /** However the location reads, at most one navigation link is highlighted. */
  lemma AtMostOneActive(pathname: string, i: nat, j: nat)
    requires i < |NavLinks| && j < |NavLinks|
    requires IsActive(pathname, NavLinks[i].path) && IsActive(pathname, NavLinks[j].path)
    ensures i == j
  {
  }
}
