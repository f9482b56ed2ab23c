/** Language-direction detection of translator.py.

    A message is scored by the number of DISTINCT lowercase Russian letters it
    contains minus the number of DISTINCT lowercase Latin letters it contains;
    a positive score sends the message to French, anything else (a negative
    score or a tie) sends it to Russian. The translation service itself is a
    parameter of the model. */
module Translator {

  import opened Wrappers

  /** The string that `ru_alph` is built from: the 33 lowercase letters of the
      Russian alphabet in alphabetical order. It is written in three pieces
      only because `ё` (U+0451) lies outside the code-point order of the
      other 32 letters (U+0430 to U+044F). */
  const RuLetters: string := "абвгде" + "ё" + "жзийклмнопрстуфхцчшщъыьэюя"

  /** The string that `fr_alph` is built from: the 26 lowercase ASCII letters. */
  const FrLetters: string := "abcdefghijklmnopqrstuvwxyz"

  /** `ru_alph = set(...)` and `fr_alph = set(...)`. */
  const RuAlphabet: set<char> := Letters(RuLetters)
  const FrAlphabet: set<char> := Letters(FrLetters)

  /** The target language handed to the translation service (`dest=`). */
  datatype Lang = Ru | Fr

  /** `{c for c in message}`: the distinct characters of a message. */
  function Letters(message: string): set<char>
  {
    set c | c in message
  }

  /** `detect_lang`: distinct Russian letters minus distinct Latin letters. */
  function DetectLang(message: string): int
  {
    |Letters(message) * RuAlphabet| - |Letters(message) * FrAlphabet|
  }

  /** The branch inside `translate`: French only on a strictly positive score.
      French is chosen only for a message with a Russian letter in it. */
  function Destination(message: string): (dest: Lang)
    ensures dest == Fr ==> exists i :: 0 <= i < |message| && message[i] in RuAlphabet
  {
    if DetectLang(message) > 0 then Fr else Ru
  }

  /** `translate`: one call to the translation service with the chosen target.
      `service(text, dest)` is the external translator; `None` stands for a call
      whose result is not text (the `TypeError` that the chat handler swallows). */
  function Translate(message: string, service: (string, Lang) -> Option<string>): (r: Option<string>)
    ensures DetectLang(message) > 0 ==> r == service(message, Fr)
    ensures DetectLang(message) <= 0 ==> r == service(message, Ru)
  {
    service(message, Destination(message))
  }

  /** `message` with every character outside both alphabets removed. */
  function Alphabetic(message: string): (kept: string)
    ensures forall c :: c in kept <==> c in message && (c in RuAlphabet || c in FrAlphabet)
  {
    if message == [] then []
    else if message[0] in RuAlphabet || message[0] in FrAlphabet then
      [message[0]] + Alphabetic(message[1..])
    else
      Alphabetic(message[1..])
  }

  /** A subset is no larger than its superset. */
  lemma SubsetCardinality(a: set<char>, b: set<char>)
    requires a <= b
    ensures |a| <= |b|
  {
    assert a * b == a;
    assert a + b == b;
    assert |a - b| + |b - a| + |a * b| == |a + b|;
  }

  /** The characters of `s` are in strictly increasing code-point order. */
  predicate Increasing(s: string)
  {
    forall i :: 0 < i < |s| ==> s[i - 1] < s[i]
  }

  /** In an increasing string every character lies between the first and the
      last, and every character after the first is above it. */
  lemma {:induction false} IncreasingBounds(s: string, j: nat)
    requires Increasing(s) && j < |s|
    ensures s[0] <= s[j] <= s[|s| - 1]
    ensures 0 < j ==> s[0] < s[j]
    decreases |s|
  {
    if 0 < j {
      IncreasingBounds(s[1..], j - 1);
    } else if |s| > 1 {
      IncreasingBounds(s[1..], 0);
    }
  }

  /** An increasing string has as many distinct characters as it is long. */
  lemma {:induction false} IncreasingLetters(s: string)
    requires Increasing(s)
    ensures |Letters(s)| == |s|
    decreases |s|
  {
    if s != [] {
      IncreasingLetters(s[1..]);
      forall j | 1 <= j < |s| ensures s[j] != s[0] {
        IncreasingBounds(s, j);
      }
      assert Letters(s) == Letters(s[1..]) + {s[0]};
    }
  }

  /** Two increasing strings, the first ending below the start of the second,
      form an increasing string. */
  lemma IncreasingJoin(a: string, b: string)
    requires Increasing(a) && Increasing(b) && |a| > 0 && |b| > 0 && a[|a| - 1] < b[0]
    ensures Increasing(a + b)
  {
  }

  /** `ru_alph` without `ё` is the increasing run from `а` to `я`. */
  lemma RuLettersWithoutYo()
    ensures Increasing("абвгде" + "жзийклмнопрстуфхцчшщъыьэюя")
    ensures RuAlphabet == Letters("абвгде" + "жзийклмнопрстуфхцчшщъыьэюя") + {'ё'}
    ensures 'ё' !in "абвгде" + "жзийклмнопрстуфхцчшщъыьэюя"
  {
    var head, tail := "абвгде", "жзийклмнопрстуфхцчшщъыьэюя";
    assert Increasing(head) && Increasing(tail);
    IncreasingJoin(head, tail);
    forall j | 0 <= j < |head + tail| ensures (head + tail)[j] != 'ё' {
      IncreasingBounds(head + tail, j);
    }
    assert Letters(RuLetters) == Letters(head + tail) + {'ё'};
  }

  /** Every letter of `ru_alph` lies in the Unicode block of lowercase Russian
      letters (U+0430 to U+044F) or is `ё` (U+0451). */
  lemma RuAlphabetRange(c: char)
    requires c in RuAlphabet
    ensures 'а' <= c <= 'я' || c == 'ё'
  {
    RuLettersWithoutYo();
    var sorted := "абвгде" + "жзийклмнопрстуфхцчшщъыьэюя";
    if c != 'ё' {
      var j :| 0 <= j < |sorted| && sorted[j] == c;
      IncreasingBounds(sorted, j);
    }
  }

  /** Every letter of `fr_alph` is a lowercase ASCII letter. */
  lemma FrAlphabetRange(c: char)
    requires c in FrAlphabet
    ensures 'a' <= c <= 'z'
  {
    FrLettersIncreasing();
    var j :| 0 <= j < |FrLetters| && FrLetters[j] == c;
    IncreasingBounds(FrLetters, j);
  }

  /** `fr_alph` is the increasing run from `a` to `z`. */
  lemma FrLettersIncreasing()
    ensures Increasing(FrLetters) && FrLetters[0] == 'a' && FrLetters[|FrLetters| - 1] == 'z'
  {
  }

  /** `ru_alph` has 33 letters and `fr_alph` has 26. */
  lemma AlphabetSizes()
    ensures |RuAlphabet| == 33 && |FrAlphabet| == 26
  {
    var sorted := "абвгде" + "жзийклмнопрстуфхцчшщъыьэюя";
    RuLettersWithoutYo();
    IncreasingLetters(sorted);
    assert 'ё' !in Letters(sorted);
    FrLettersIncreasing();
    IncreasingLetters(FrLetters);
  }

  /** No letter belongs to both alphabets. */
  lemma AlphabetsDisjoint()
    ensures RuAlphabet * FrAlphabet == {}
  {
    forall c | c in RuAlphabet ensures c !in FrAlphabet {
      RuAlphabetRange(c);
      if c in FrAlphabet {
        FrAlphabetRange(c);
      }
    }
  }

  /** The score lies between minus the size of the Latin alphabet and the size
      of the Russian alphabet. */
  lemma DetectLangBounds(message: string)
    ensures -26 <= DetectLang(message) <= 33
  {
    AlphabetSizes();
    SubsetCardinality(Letters(message) * RuAlphabet, RuAlphabet);
    SubsetCardinality(Letters(message) * FrAlphabet, FrAlphabet);
  }

  /** Only which characters occur matters: two messages with the same
      characters score the same. */
  lemma DetectLangSameCharacters(m1: string, m2: string)
    requires forall c :: c in m1 <==> c in m2
    ensures DetectLang(m1) == DetectLang(m2)
  {
    assert Letters(m1) == Letters(m2);
  }

  /** Repeating a character of the message does not change the score. */
  lemma DetectLangRepeat(message: string, i: nat)
    requires i < |message|
    ensures DetectLang(message + [message[i]]) == DetectLang(message)
  {
    DetectLangSameCharacters(message + [message[i]], message);
  }

  /** Reordering the characters of the message does not change the score. */
  lemma DetectLangReorder(m1: string, m2: string)
    requires multiset(m1) == multiset(m2)
    ensures DetectLang(m1) == DetectLang(m2)
  {
    forall c ensures c in m1 <==> c in m2 {
      assert c in m1 <==> c in multiset(m1);
      assert c in m2 <==> c in multiset(m2);
    }
    DetectLangSameCharacters(m1, m2);
  }

  /** Characters outside both alphabets do not affect the score. */
  lemma DetectLangIgnoresOthers(message: string)
    ensures DetectLang(Alphabetic(message)) == DetectLang(message)
  {
    var kept := Alphabetic(message);
    assert Letters(kept) * RuAlphabet == Letters(message) * RuAlphabet;
    assert Letters(kept) * FrAlphabet == Letters(message) * FrAlphabet;
  }

  /** Inserting one character outside both alphabets anywhere in a message does
      not change the score. */
  lemma DetectLangInsertOther(before: string, c: char, after: string)
    requires c !in RuAlphabet && c !in FrAlphabet
    ensures DetectLang(before + [c] + after) == DetectLang(before + after)
  {
    var m1, m2 := before + [c] + after, before + after;
    assert Letters(m1) == Letters(m2) + {c};
    assert Letters(m1) * RuAlphabet == Letters(m2) * RuAlphabet;
    assert Letters(m1) * FrAlphabet == Letters(m2) * FrAlphabet;
  }

  /** Uppercase letters, Latin or Russian, are in neither alphabet. */
  lemma UppercaseIgnored(c: char)
    requires 'A' <= c <= 'Z' || 'А' <= c <= 'Я' || c == 'Ё'
    ensures c !in RuAlphabet && c !in FrAlphabet
  {
    if c in RuAlphabet {
      RuAlphabetRange(c);
    }
    if c in FrAlphabet {
      FrAlphabetRange(c);
    }
  }

  /** A message with no letter of either alphabet (the empty message among
      them) scores 0, and the tie goes to Russian. */
  lemma NoLettersTie(message: string)
    requires forall i :: 0 <= i < |message| ==> message[i] !in RuAlphabet && message[i] !in FrAlphabet
    ensures DetectLang(message) == 0
    ensures Destination(message) == Ru
  {
    assert Letters(message) * RuAlphabet == {};
    assert Letters(message) * FrAlphabet == {};
  }

  /** A message with a Russian letter and no Latin letter goes to French. */
  lemma OnlyRussianGoesToFrench(message: string)
    requires exists i :: 0 <= i < |message| && message[i] in RuAlphabet
    requires forall i :: 0 <= i < |message| ==> message[i] !in FrAlphabet
    ensures DetectLang(message) > 0
    ensures Destination(message) == Fr
  {
    var i :| 0 <= i < |message| && message[i] in RuAlphabet;
    assert message[i] in Letters(message) * RuAlphabet;
    assert Letters(message) * FrAlphabet == {};
  }

  /** A message with a Latin letter and no Russian letter goes to Russian. */
  lemma OnlyLatinGoesToRussian(message: string)
    requires exists i :: 0 <= i < |message| && message[i] in FrAlphabet
    requires forall i :: 0 <= i < |message| ==> message[i] !in RuAlphabet
    ensures DetectLang(message) < 0
    ensures Destination(message) == Ru
  {
    var i :| 0 <= i < |message| && message[i] in FrAlphabet;
    assert message[i] in Letters(message) * FrAlphabet;
    assert Letters(message) * RuAlphabet == {};
  }

  /** "Bonjour le monde" has only Latin letters and is sent to Russian. */
  lemma BonjourLeMondeGoesToRussian()
    ensures DetectLang("Bonjour le monde") < 0
    ensures Destination("Bonjour le monde") == Ru
  {
    var m := "Bonjour le monde";
    assert m[1] == 'o';
    forall i | 0 <= i < |m| ensures m[i] !in RuAlphabet {
      assert m[i] <= 'z';
      if m[i] in RuAlphabet {
        RuAlphabetRange(m[i]);
      }
    }
    OnlyLatinGoesToRussian(m);
  }
}
