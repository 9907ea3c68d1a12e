/**
 * getInitials (client/src/lib/exportUtils.ts): the badge text of a sales
 * representative, built from the first character of every word of the
 * name. Only ASCII letters are upper-cased in this model.
 */
module ExportUtils {

  /** `s.split(' ')`: the pieces between single spaces, empty ones included. */
  function Split(s: string): (parts: seq<string>)
    ensures |parts| >= 1
    decreases |s|
  {
    if s == [] then [[]]
    else if s[0] == ' ' then [[]] + Split(s[1..])
    else
      var rest := Split(s[1..]);
      [[s[0]] + rest[0]] + rest[1..]
  }

  /** `parts.join(sep)`. */
  function Join(parts: seq<string>, sep: char): string
  {
    if |parts| == 0 then []
    else if |parts| == 1 then parts[0]
    else parts[0] + [sep] + Join(parts[1..], sep)
  }

  /** `part[0]` joined into a string: an empty piece gives `undefined`, which joins as "". */
  function Head(part: string): (h: string)
    ensures |h| <= 1
    ensures |h| == 1 <==> part != []
  {
    if part == [] then [] else [part[0]]
  }

  /** `.map(part => part[0]).join('')`. */
  function FirstChars(parts: seq<string>): string
  {
    if |parts| == 0 then [] else Head(parts[0]) + FirstChars(parts[1..])
  }

  /** `toUpperCase` on one character, for the ASCII letters a-z. */
  function ToUpper(c: char): (u: char)
    ensures 'a' <= c <= 'z' ==> 'A' <= u <= 'Z' && u as int == c as int - 32
    ensures !('a' <= c <= 'z') ==> u == c
  {
    if 'a' <= c <= 'z' then (c as int - 32) as char else c
  }

  function UpperCase(s: string): (u: string)
    ensures |u| == |s|
    ensures forall i :: 0 <= i < |s| ==> u[i] == ToUpper(s[i])
  {
    seq(|s|, i requires 0 <= i < |s| => ToUpper(s[i]))
  }

  /** `.slice(0, 2)`. */
  function TakeTwo(s: string): (t: string)
    ensures |t| == if |s| < 2 then |s| else 2
    ensures t == s[..|t|]
  {
    if |s| <= 2 then s else s[..2]
  }

  /** getInitials: "SR" for an empty name, otherwise at most two upper-cased word initials. */
  function Initials(name: string): (r: string)
    ensures name == [] ==> r == "SR"
    ensures |r| <= 2
  {
    if name == [] then "SR"
    else TakeTwo(UpperCase(FirstChars(Split(name))))
  }

  /**
   * The characters that start a word: those that are not a space and come
   * first or right after a space. `atStart` says whether the character
   * before `s` was a space (or there was none).
   */
  function WordStarts(s: string, atStart: bool): string
  {
    if s == [] then []
    else (if s[0] != ' ' && atStart then [s[0]] else []) + WordStarts(s[1..], s[0] == ' ')
  }

  /** Splitting and joining with the same separator gives back the string. */
  lemma {:induction false} SplitJoin(s: string)
    ensures Join(Split(s), ' ') == s
    ensures forall i :: 0 <= i < |Split(s)| ==> ' ' !in Split(s)[i]
    decreases |s|
  {
    if s == [] {
    } else if s[0] == ' ' {
      SplitJoin(s[1..]);
      var rest := Split(s[1..]);
      assert Split(s) == [[]] + rest;
      assert Split(s)[1..] == rest;
      assert s == [] + [' '] + s[1..];
    } else {
      SplitJoin(s[1..]);
      var rest := Split(s[1..]);
      assert Split(s) == [[s[0]] + rest[0]] + rest[1..];
      if |rest| == 1 {
        assert s == [s[0]] + rest[0];
      } else {
        assert Join(rest, ' ') == rest[0] + [' '] + Join(rest[1..], ' ');
        assert Split(s)[1..] == rest[1..];
        assert s == [s[0]] + rest[0] + [' '] + Join(rest[1..], ' ');
      }
      forall i | 0 <= i < |Split(s)|
        ensures ' ' !in Split(s)[i]
      {
        if i > 0 {
          assert Split(s)[i] == rest[i];
        }
      }
    }
  }

  /** After the first piece, the pieces start exactly where a word starts after a non-space. */
  lemma {:induction false} FirstCharsOfLaterPieces(s: string)
    ensures FirstChars(Split(s)[1..]) == WordStarts(s, false)
    decreases |s|
  {
    if s == [] {
    } else if s[0] == ' ' {
      FirstCharsAreWordStarts(s[1..]);
      assert Split(s)[1..] == Split(s[1..]);
    } else {
      FirstCharsOfLaterPieces(s[1..]);
      var rest := Split(s[1..]);
      assert Split(s)[1..] == rest[1..];
    }
  }

  /** The first characters of the pieces of `s` are its word starts, in order. */
  lemma {:induction false} FirstCharsAreWordStarts(s: string)
    ensures FirstChars(Split(s)) == WordStarts(s, true)
    decreases |s|
  {
    if s == [] {
    } else if s[0] == ' ' {
      FirstCharsAreWordStarts(s[1..]);
      var parts := Split(s);
      assert parts == [[]] + Split(s[1..]);
      assert parts[1..] == Split(s[1..]);
    } else {
      FirstCharsOfLaterPieces(s[1..]);
      var rest := Split(s[1..]);
      var parts := Split(s);
      assert parts == [[s[0]] + rest[0]] + rest[1..];
      assert parts[1..] == rest[1..];
      assert Head(parts[0]) == [s[0]];
    }
  }

  /**
   * getInitials is the upper-cased first two word starts of the name, for
   * every non-empty name.
   */
  lemma InitialsAreWordStarts(name: string)
    requires name != []
    ensures Initials(name) == TakeTwo(UpperCase(WordStarts(name, true)))
  {
    FirstCharsAreWordStarts(name);
  }

  /** A string without spaces has no word start after a non-space. */
  lemma {:induction false} NoSpaceNoLaterStart(s: string)
    requires ' ' !in s
    ensures WordStarts(s, false) == []
    decreases |s|
  {
    if s != [] {
      assert s[0] in s;
      assert forall c :: c in s[1..] ==> c in s;
      NoSpaceNoLaterStart(s[1..]);
    }
  }

  /** A one-word name yields exactly its first character, upper-cased. */
  lemma OneWordName(name: string)
    requires name != [] && ' ' !in name
    ensures Initials(name) == [ToUpper(name[0])]
  {
    InitialsAreWordStarts(name);
    assert name[0] in name;
    assert forall c :: c in name[1..] ==> c in name;
    NoSpaceNoLaterStart(name[1..]);
    assert WordStarts(name, true) == [name[0]];
  }

  /** A string of spaces only has no word start. */
  lemma {:induction false} SpacesHaveNoStart(s: string, atStart: bool)
    requires forall i :: 0 <= i < |s| ==> s[i] == ' '
    ensures WordStarts(s, atStart) == []
    decreases |s|
  {
    if s != [] {
      SpacesHaveNoStart(s[1..], true);
    }
  }

  /** A name of spaces only is not empty, so it yields "" rather than "SR". */
  lemma SpacesOnlyName(name: string)
    requires name != [] && forall i :: 0 <= i < |name| ==> name[i] == ' '
    ensures Initials(name) == []
  {
    InitialsAreWordStarts(name);
    SpacesHaveNoStart(name, true);
  }

  /** Two words give the upper-cased initials of both, in order. */
  lemma TwoWordName(first: string, second: string)
    requires first != [] && ' ' !in first
    requires second != [] && ' ' !in second
    ensures Initials(first + [' '] + second) == [ToUpper(first[0]), ToUpper(second[0])]
  {
    var name := first + [' '] + second;
    InitialsAreWordStarts(name);
    assert name == first + ([' '] + second);
    WordStartsOfWord(first, [' '] + second);
    assert ([' '] + second)[1..] == second;
    assert WordStarts([' '] + second, false) == WordStarts(second, true);
    WordStartsOfWord(second, []);
    assert second + [] == second;
    var starts := WordStarts(name, true);
    assert starts == [first[0], second[0]];
    assert UpperCase(starts) == [ToUpper(first[0]), ToUpper(second[0])];
  }

  /** A word followed by `rest` contributes its first character and nothing else. */
  lemma {:induction false} WordStartsOfWord(word: string, rest: string)
    requires word != [] && ' ' !in word
    ensures WordStarts(word + rest, true) == [word[0]] + WordStarts(rest, false)
  {
    assert (word + rest)[0] == word[0];
    assert (word + rest)[1..] == word[1..] + rest;
    assert forall c :: c in word[1..] ==> c in word;
    LaterWordStarts(word[1..], rest);
  }

  /** A run of non-spaces after a non-space starts no word. */
  lemma {:induction false} LaterWordStarts(run: string, rest: string)
    requires ' ' !in run
    ensures WordStarts(run + rest, false) == WordStarts(rest, false)
    decreases |run|
  {
    if run != [] {
      assert (run + rest)[0] == run[0];
      assert run[0] in run;
      assert (run + rest)[1..] == run[1..] + rest;
      assert forall c :: c in run[1..] ==> c in run;
      LaterWordStarts(run[1..], rest);
    } else {
      assert run + rest == rest;
    }
  }
}
