/** Username derivation: the expression inside `createUsernames` (script.js),
    `owner.toLowerCase().split(" ").map(name => name[0]).join("")`. */
module Usernames {

  /** `toLowerCase` on one character, for the ASCII letters. */
  function LowerChar(c: char): (r: char)
    ensures r == ' ' <==> c == ' '
    ensures 'A' <= c <= 'Z' ==> r != c && 'a' <= r <= 'z'
    ensures !('A' <= c <= 'Z') ==> r == c
  {
    if 'A' <= c <= 'Z' then (c as int - 'A' as int + 'a' as int) as char else c
  }

  /** `toLowerCase` on a string: character by character. */
  function Lower(s: string): (r: string)
    ensures |r| == |s|
    ensures forall i :: 0 <= i < |s| ==> r[i] == LowerChar(s[i])
  {
    if s == [] then [] else [LowerChar(s[0])] + Lower(s[1..])
  }

  /** `split(" ")`: the pieces between single spaces, in order. Two spaces in a
      row, or a leading or trailing space, give an empty piece; there is
      always at least one piece. */
  function Split(s: string): (r: seq<string>)
    ensures |r| >= 1
  {
    if s == [] then [""]
    else
      var rest := Split(s[1..]);
      if s[0] == ' ' then [""] + rest
      else [[s[0]] + rest[0]] + rest[1..]
  }

  /** `name[0]` joined by `join("")`: an empty piece gives `undefined`, which
      `join` writes as the empty string. */
  function Initial(name: string): (r: string)
    ensures |r| <= 1
  {
    if name == "" then "" else [name[0]]
  }

  /** `map(name => name[0]).join("")`. */
  function Initials(names: seq<string>): string
  {
    if names == [] then "" else Initial(names[0]) + Initials(names[1..])
  }

  /** The username of an owner, as `createUsernames` assigns it. */
  function Username(owner: string): string
  {
    Initials(Split(Lower(owner)))
  }

  /** An independent, index-based reading of "first letter of each word":
      the characters of `s` that are not spaces and follow a space or the
      start (`afterSpace` says whether the character before `s` was one). */
  function WordStarts(s: string, afterSpace: bool): string
  {
    if s == [] then ""
    else
      (if s[0] != ' ' && afterSpace then [s[0]] else [])
      + WordStarts(s[1..], s[0] == ' ')
  }

  /** Splitting and taking initials picks out exactly the word starts. Both
      halves are needed for the induction: from inside the first piece only
      the initials of the later pieces remain. */
  lemma {:induction false} InitialsAreWordStarts(s: string)
    ensures WordStarts(s, true) == Initials(Split(s))
    ensures WordStarts(s, false) == Initials(Split(s)[1..])
  {
    if s != [] {
      InitialsAreWordStarts(s[1..]);
      var rest := Split(s[1..]);
      if s[0] == ' ' {
        assert Split(s) == [""] + rest;
        assert Split(s)[1..] == rest;
      } else {
        var first := [s[0]] + rest[0];
        assert Split(s) == [first] + rest[1..];
        assert Split(s)[1..] == rest[1..];
        assert Initial(first) == [s[0]];
      }
    }
  }

  /** The username is the lower-cased first character of every word of the
      owner, in order: the character at each position that is not a space and
      is at the start or after a space. */
  lemma UsernameIsLowerWordStarts(owner: string)
    ensures Username(owner) == WordStarts(Lower(owner), true)
  {
    InitialsAreWordStarts(Lower(owner));
  }

  /** Every character of the username comes from the owner's name: there are
      never more initials than characters, and none of them is a space. */
  lemma {:induction false} WordStartsShape(s: string, afterSpace: bool)
    ensures |WordStarts(s, afterSpace)| <= |s|
    ensures ' ' !in WordStarts(s, afterSpace)
  {
    if s != [] {
      WordStartsShape(s[1..], s[0] == ' ');
    }
  }

  lemma UsernameShape(owner: string)
    ensures |Username(owner)| <= |owner|
    ensures ' ' !in Username(owner)
  {
    UsernameIsLowerWordStarts(owner);
    WordStartsShape(Lower(owner), true);
  }

  /** Inside a word nothing more is picked. */
  lemma {:induction false} WordStartsInsideWord(w: string, rest: string)
    requires ' ' !in w
    ensures WordStarts(w + rest, false) == WordStarts(rest, false)
  {
    if w == [] {
      assert w + rest == rest;
    } else {
      assert (w + rest)[1..] == w[1..] + rest;
      assert w[0] in w;
      WordStartsInsideWord(w[1..], rest);
    }
  }

  /** A word at a word start contributes its first character; the space that
      ends it opens the next word. */
  lemma WordStartsWord(w: string, rest: string)
    requires w != [] && ' ' !in w
    ensures WordStarts(w + " " + rest, true) == [w[0]] + WordStarts(rest, true)
  {
    var tail := " " + rest;
    assert w + " " + rest == w + tail;
    assert (w + tail)[1..] == w[1..] + tail;
    assert w[0] in w;
    WordStartsInsideWord(w[1..], tail);
    assert tail[1..] == rest;
  }

  /** The last word of a name. */
  lemma WordStartsLastWord(w: string)
    requires w != [] && ' ' !in w
    ensures WordStarts(w, true) == [w[0]]
  {
    assert w[0] in w;
    WordStartsInsideWord(w[1..], "");
    assert w[1..] + "" == w[1..];
  }

  /** `words.join(" ")`: a name written as words separated by single spaces. */
  function JoinWords(words: seq<string>): string
    requires |words| >= 1
  {
    if |words| == 1 then words[0] else words[0] + " " + JoinWords(words[1..])
  }

  /** `split(" ")` undone: joining the pieces with single spaces gives back
      the string. */
  lemma {:induction false} SplitJoin(s: string)
    ensures JoinWords(Split(s)) == s
  {
    if s != [] {
      var rest := Split(s[1..]);
      SplitJoin(s[1..]);
      assert s == [s[0]] + s[1..];
      if s[0] == ' ' {
        assert ([""] + rest)[1..] == rest;
      } else if |rest| > 1 {
        var first := [s[0]] + rest[0];
        assert ([first] + rest[1..])[1..] == rest[1..];
        assert JoinWords(rest) == rest[0] + " " + JoinWords(rest[1..]);
        assert first + " " + JoinWords(rest[1..]) == [s[0]] + (rest[0] + " " + JoinWords(rest[1..]));
      }
    }
  }

  /** No piece of `split(" ")` holds a space. */
  lemma {:induction false} SplitNoSpace(s: string)
    ensures forall i :: 0 <= i < |Split(s)| ==> ' ' !in Split(s)[i]
  {
    if s != [] && s[0] != ' ' {
      var rest := Split(s[1..]);
      SplitNoSpace(s[1..]);
      var first := [s[0]] + rest[0];
      assert ' ' !in first by {
        assert ' ' !in rest[0];
        forall k | 0 <= k < |first| ensures first[k] != ' ' {
          if k > 0 {
            assert first[k] == rest[0][k - 1];
          }
        }
      }
      forall i | 1 <= i < |Split(s)| ensures ' ' !in Split(s)[i] {
        assert Split(s)[i] == rest[i];
      }
    } else if s != [] {
      SplitNoSpace(s[1..]);
      forall i | 1 <= i < |Split(s)| ensures ' ' !in Split(s)[i] {
        assert Split(s)[i] == Split(s[1..])[i - 1];
      }
    }
  }

  /** The lower-cased first letter of each word, in order. */
  function FirstLetters(words: seq<string>): (r: string)
    ensures |r| <= |words|
  {
    if words == [] then ""
    else Initial(Lower(words[0])) + FirstLetters(words[1..])
  }

  lemma LowerConcat(a: string, b: string)
    ensures Lower(a + b) == Lower(a) + Lower(b)
  {
    assert forall i :: 0 <= i < |a + b| ==> Lower(a + b)[i] == (Lower(a) + Lower(b))[i];
  }

  /** The username of a name made of non-empty words separated by single
      spaces is the lower-cased first letter of each word: for example
      "Sarah Louise Newton" gives "sln". */
  lemma {:induction false} UsernameOfWords(owner: string, words: seq<string>)
    requires |words| >= 1
    requires forall i :: 0 <= i < |words| ==> words[i] != "" && ' ' !in words[i]
    requires owner == JoinWords(words)
    ensures Username(owner) == FirstLetters(words)
  {
    UsernameIsLowerWordStarts(owner);
    WordStartsOfWords(words);
  }

  lemma {:induction false} WordStartsOfWords(words: seq<string>)
    requires |words| >= 1
    requires forall i :: 0 <= i < |words| ==> words[i] != "" && ' ' !in words[i]
    ensures WordStarts(Lower(JoinWords(words)), true) == FirstLetters(words)
  {
    var w := words[0];
    var lw := Lower(w);
    assert ' ' !in lw by {
      forall i | 0 <= i < |lw| ensures lw[i] != ' ' {
        assert w[i] in w;
      }
    }
    if |words| == 1 {
      WordStartsLastWord(lw);
    } else {
      var rest := words[1..];
      WordStartsOfWords(rest);
      LowerConcat(w + " ", JoinWords(rest));
      LowerConcat(w, " ");
      assert Lower(" ") == " ";
      WordStartsWord(lw, Lower(JoinWords(rest)));
    }
  }

  // The usernames `createUsernames` gives the four seed accounts, one owner
  // at a time: each owner's name is split into its words, and the username
  // is their first letters. The owner is a parameter equal to the literal,
  // and the facts about the word list are proved apart from it: with
  // `Username` applied to a string literal the solver evaluates it and the
  // proof becomes several times more expensive.

  /** The words of "Alena Fleming". */
  const AlenaFlemingWords: seq<string> := ["Alena", "Fleming"]

  lemma WordsOfAlenaFleming()
    ensures forall i :: 0 <= i < |AlenaFlemingWords| ==> AlenaFlemingWords[i] != "" && ' ' !in AlenaFlemingWords[i]
    ensures JoinWords(AlenaFlemingWords) == "Alena Fleming"
  {
    assert ' ' !in AlenaFlemingWords[0] && ' ' !in AlenaFlemingWords[1];
  }

  lemma UsernameAlenaFleming(owner: string)
    requires owner == "Alena Fleming"
    ensures Username(owner) == "af"
  {
    WordsOfAlenaFleming();
    assert FirstLetters(AlenaFlemingWords) == "af";
    UsernameOfWords(owner, AlenaFlemingWords);
  }

  /** The words of "Maisey Charlton". */
  const MaiseyCharltonWords: seq<string> := ["Maisey", "Charlton"]

  lemma WordsOfMaiseyCharlton()
    ensures forall i :: 0 <= i < |MaiseyCharltonWords| ==> MaiseyCharltonWords[i] != "" && ' ' !in MaiseyCharltonWords[i]
    ensures JoinWords(MaiseyCharltonWords) == "Maisey Charlton"
  {
    assert ' ' !in MaiseyCharltonWords[0] && ' ' !in MaiseyCharltonWords[1];
  }

  lemma UsernameMaiseyCharlton(owner: string)
    requires owner == "Maisey Charlton"
    ensures Username(owner) == "mc"
  {
    WordsOfMaiseyCharlton();
    assert FirstLetters(MaiseyCharltonWords) == "mc";
    UsernameOfWords(owner, MaiseyCharltonWords);
  }

  /** The words of "Bradley Smith". */
  const BradleySmithWords: seq<string> := ["Bradley", "Smith"]

  lemma WordsOfBradleySmith()
    ensures forall i :: 0 <= i < |BradleySmithWords| ==> BradleySmithWords[i] != "" && ' ' !in BradleySmithWords[i]
    ensures JoinWords(BradleySmithWords) == "Bradley Smith"
  {
    assert ' ' !in BradleySmithWords[0] && ' ' !in BradleySmithWords[1];
  }

  lemma UsernameBradleySmith(owner: string)
    requires owner == "Bradley Smith"
    ensures Username(owner) == "bs"
  {
    WordsOfBradleySmith();
    assert FirstLetters(BradleySmithWords) == "bs";
    UsernameOfWords(owner, BradleySmithWords);
  }

  /** The words of "Sarah Louise Newton". */
  const SarahLouiseNewtonWords: seq<string> := ["Sarah", "Louise", "Newton"]

  lemma WordsOfSarahLouiseNewton()
    ensures forall i :: 0 <= i < |SarahLouiseNewtonWords| ==> SarahLouiseNewtonWords[i] != "" && ' ' !in SarahLouiseNewtonWords[i]
    ensures JoinWords(SarahLouiseNewtonWords) == "Sarah Louise Newton"
  {
    assert ' ' !in SarahLouiseNewtonWords[0] && ' ' !in SarahLouiseNewtonWords[1] && ' ' !in SarahLouiseNewtonWords[2];
  }

  lemma UsernameSarahLouiseNewton(owner: string)
    requires owner == "Sarah Louise Newton"
    ensures Username(owner) == "sln"
  {
    WordsOfSarahLouiseNewton();
    assert FirstLetters(SarahLouiseNewtonWords) == "sln";
    UsernameOfWords(owner, SarahLouiseNewtonWords);
  }
}
