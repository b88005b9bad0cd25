/** The team page's avatar initials: `name.split(' ').map(n => n[0]).join('')`. */
module Team {

  datatype TeamMember = TeamMember(name: string, role: string, email: string)

  const TeamMembers: seq<TeamMember> := [
    TeamMember("Sathvik Prasad", "Co-Founder", "sathvikprasad@neurostreamai.com"),
    TeamMember("Nikhilesh Shenoy", "Co-Founder", "nikhilesh.shenoy@neurostreamai.com"),
    TeamMember("Pranay Srinivas", "Co-Founder", "pranay.srinivas@neurostreamai.com")]

  /** `s.split(' ')`: the pieces between spaces, empty ones included; never an empty list. */
  function Split(s: string): (parts: seq<string>)
    ensures |parts| >= 1
    ensures forall k :: 0 <= k < |parts| ==> ' ' !in parts[k]
  {
    if s == [] then [[]]
    else if s[0] == ' ' then [[]] + Split(s[1..])
    else
      var rest := Split(s[1..]);
      [[s[0]] + rest[0]] + rest[1..]
  }

  /** `parts.join(' ')`. */
  function Join(parts: seq<string>): string
    requires |parts| >= 1
  {
    if |parts| == 1 then parts[0] else parts[0] + [' '] + Join(parts[1..])
  }

  /** Splitting loses nothing: joining the pieces with spaces gives the string back. */
  lemma {:induction false} JoinSplit(s: string)
    ensures Join(Split(s)) == s
  {
    if s != [] {
      JoinSplit(s[1..]);
      var rest := Split(s[1..]);
      if s[0] == ' ' {
        assert Split(s)[1..] == rest;
      } else {
        var parts := Split(s);
        if |rest| == 1 {
          assert parts == [[s[0]] + rest[0]];
        } else {
          assert parts[1..] == rest[1..];
          assert Join(rest) == rest[0] + [' '] + Join(rest[1..]);
        }
      }
    }
  }

  /** `n[0]` as `join` renders it: the first character, or `''` for `undefined`. */
  function FirstChar(part: string): string {
    if part == [] then [] else [part[0]]
  }

  /** `parts.map(n => n[0]).join('')`. */
  function JoinFirstChars(parts: seq<string>): string {
    if parts == [] then [] else FirstChar(parts[0]) + JoinFirstChars(parts[1..])
  }

  function Initials(name: string): string {
    JoinFirstChars(Split(name))
  }

  /** The non-empty pieces, in order. */
  function NonEmpty(parts: seq<string>): (r: seq<string>)
    ensures |r| <= |parts|
    ensures forall k :: 0 <= k < |r| ==> r[k] != [] && r[k] in parts
  {
    if parts == [] then []
    else if parts[0] == [] then NonEmpty(parts[1..])
    else [parts[0]] + NonEmpty(parts[1..])
  }

  /**
   * The initials are the first characters of the non-empty pieces, in order:
   * one per non-empty piece, and none for the empty pieces that leading,
   * trailing or repeated spaces produce.
   */
  lemma {:induction false} FirstCharsOfNonEmpty(parts: seq<string>)
    ensures |JoinFirstChars(parts)| == |NonEmpty(parts)|
    ensures forall k :: 0 <= k < |NonEmpty(parts)| ==> JoinFirstChars(parts)[k] == NonEmpty(parts)[k][0]
  {
    if parts != [] {
      FirstCharsOfNonEmpty(parts[1..]);
    }
  }

  lemma InitialsOfName(name: string)
    ensures |Initials(name)| == |NonEmpty(Split(name))|
    ensures forall k :: 0 <= k < |Initials(name)| ==> Initials(name)[k] == NonEmpty(Split(name))[k][0]
  {
    FirstCharsOfNonEmpty(Split(name));
  }

  /** A word without spaces is one piece; a word, a space and more text split after the word. */
  lemma {:induction false} SplitAfterWord(word: string, rest: string)
    requires ' ' !in word
    ensures Split(word) == [word]
    ensures Split(word + [' '] + rest) == [word] + Split(rest)
  {
    if word != [] {
      assert (word + [' '] + rest)[1..] == word[1..] + [' '] + rest;
      SplitAfterWord(word[1..], rest);
      assert [word[0]] + word[1..] == word;
    } else {
      assert word + [' '] + rest == [' '] + rest;
      assert ([' '] + rest)[1..] == rest;
    }
  }

  /** A first and a last name give their two initials. */
  lemma TwoWordInitials(first: string, last: string)
    requires first != [] && last != []
    requires ' ' !in first && ' ' !in last
    ensures Initials(first + " " + last) == [first[0], last[0]]
  {
    SplitAfterWord(first, last);
    SplitAfterWord(last, []);
    assert first + " " + last == first + [' '] + last;
    var parts := [first, last];
    assert Split(first + " " + last) == parts;
    assert parts[1..] == [last];
    assert JoinFirstChars([last]) == [last[0]] by {
      assert [last][1..] == [];
    }
    assert JoinFirstChars(parts) == [first[0]] + JoinFirstChars([last]);
  }

  /** The three founders' avatars read SP, NS and PS. */
  lemma TeamInitials(i: nat)
    requires i < |TeamMembers|
    ensures Initials(TeamMembers[i].name) == ["SP", "NS", "PS"][i]
  {
    if i == 0 {
      assert Initials(TeamMembers[0].name) == "SP" by {
        assert TeamMembers[0].name == "Sathvik" + " " + "Prasad";
        TwoWordInitials("Sathvik", "Prasad");
      }
    } else if i == 1 {
      assert Initials(TeamMembers[1].name) == "NS" by {
        assert TeamMembers[1].name == "Nikhilesh" + " " + "Shenoy";
        TwoWordInitials("Nikhilesh", "Shenoy");
      }
    } else {
      assert Initials(TeamMembers[2].name) == "PS" by {
        assert TeamMembers[2].name == "Pranay" + " " + "Srinivas";
        TwoWordInitials("Pranay", "Srinivas");
      }
    }
  }
}
