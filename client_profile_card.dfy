/**
 * The client profile card (client/src/components/client-profile-card.tsx): the initials
 * shown when there is no avatar picture, and the colour and text of the sentiment badge.
 */
module ClientProfileCard {
  import opened Wrappers
  import opened Seqs
  import opened Strings

  predicate NonEmpty(w: string)
  {
    w != []
  }

  /**
   * `words.map((n) => n[0]).join("")`: an empty word maps to `undefined`, which `join`
   * writes as nothing, so only the non-empty words contribute their first character.
   */
  function FirstChars(words: seq<string>): (r: string)
    ensures |r| == Count(words, NonEmpty)
  {
    if words == [] then []
    else (if words[0] != [] then [words[0][0]] else []) + FirstChars(words[1..])
  }

  /** Empty words contribute nothing. */
  lemma {:induction false} EmptyWordsIgnored(words: seq<string>)
    ensures FirstChars(words) == FirstChars(Filter(words, NonEmpty))
  {
    if words != [] {
      EmptyWordsIgnored(words[1..]);
      var f := Filter(words, NonEmpty);
      if words[0] != [] {
        assert f == [words[0]] + Filter(words[1..], NonEmpty);
        assert f[1..] == Filter(words[1..], NonEmpty);
        assert FirstChars(f) == [words[0][0]] + FirstChars(f[1..]);
      } else {
        assert f == Filter(words[1..], NonEmpty);
        assert FirstChars(words) == FirstChars(words[1..]);
      }
    }
  }

  /** Of non-empty words, the first character of each, in order. */
  lemma {:induction false} FirstCharsOfNonEmpty(words: seq<string>)
    requires forall k :: 0 <= k < |words| ==> words[k] != []
    ensures |FirstChars(words)| == |words|
    ensures forall k :: 0 <= k < |words| ==> FirstChars(words)[k] == words[k][0]
  {
    if words != [] {
      FirstCharsOfNonEmpty(words[1..]);
      assert FirstChars(words) == [words[0][0]] + FirstChars(words[1..]);
    }
  }

  /** `name.split(" ").map((n) => n[0]).join("")`. */
  function Initials(name: string): (r: string)
    ensures |r| <= |Split(name, ' ')|
  {
    FirstChars(Split(name, ' '))
  }

  /** A piece without the separator, followed by the separator, splits off as one word. */
  lemma {:induction false} SplitAfterWord(a: string, b: string, sep: char)
    requires sep !in a
    ensures Split(a + [sep] + b, sep) == [a] + Split(b, sep)
  {
    if a == [] {
      assert a + [sep] + b == [sep] + b;
      assert ([sep] + b)[1..] == b;
    } else {
      var s := a + [sep] + b;
      assert s[0] == a[0] && s[1..] == a[1..] + [sep] + b;
      SplitAfterWord(a[1..], b, sep);
      assert [a[0]] + a[1..] == a;
    }
  }

  /** Joining words free of the separator and splitting again gives the words back. */
  lemma {:induction false} JoinSplit(words: seq<string>, sep: char)
    requires |words| >= 1
    requires forall k :: 0 <= k < |words| ==> sep !in words[k]
    ensures Split(Join(words, [sep]), sep) == words
  {
    if |words| == 1 {
      SplitNoSeparator(words[0], sep);
    } else {
      JoinSplit(words[1..], sep);
      assert Join(words, [sep]) == words[0] + [sep] + Join(words[1..], [sep]);
      SplitAfterWord(words[0], Join(words[1..], [sep]), sep);
      assert [words[0]] + words[1..] == words;
    }
  }

  /**
   * For a name made of words joined by single spaces, the initials are the first
   * character of each word, in order.
   */
  lemma InitialsOfWords(words: seq<string>)
    requires |words| >= 1
    requires forall k :: 0 <= k < |words| ==> words[k] != [] && ' ' !in words[k]
    ensures |Initials(Join(words, " "))| == |words|
    ensures forall k :: 0 <= k < |words| ==> Initials(Join(words, " "))[k] == words[k][0]
  {
    JoinSplit(words, ' ');
    FirstCharsOfNonEmpty(words);
  }

  /** `getInitials`: the initials upper-cased, cut to two characters. */
  function GetInitials(name: string): (r: string)
    ensures |r| == Min(2, |Initials(name)|)
    ensures IsUpperCased(r)
    ensures r == ToUpper(Initials(name))[..|r|]
  {
    Take(ToUpper(Initials(name)), 2)
  }

  /** Upper-casing again changes nothing: the initials are already upper-cased. */
  lemma GetInitialsStable(name: string)
    ensures ToUpper(GetInitials(name)) == GetInitials(name)
  {
  }

  /**
   * `getSentimentColor`: one colour per sentiment; for any other value the `switch` falls
   * through and gives `undefined`.
   */
  function SentimentColor(sentiment: string): (color: Option<string>)
    ensures color.Some? <==> sentiment in {"positive", "neutral", "negative"}
  {
    match sentiment
    case "positive" => Some("bg-chart-2/10 text-chart-2 border-chart-2/20")
    case "neutral" => Some("bg-muted text-muted-foreground border-muted")
    case "negative" => Some("bg-chart-5/10 text-chart-5 border-chart-5/20")
    case _ => None
  }

  /**
   * The badge text: of the three `sentiment === x && "..."` expressions at most one
   * renders, and for any other value none does.
   */
  function SentimentLabel(sentiment: string): (text: string)
    ensures text in {"Positivo", "Neutral", "Negativo", ""}
  {
    if sentiment == "positive" then "Positivo"
    else if sentiment == "neutral" then "Neutral"
    else if sentiment == "negative" then "Negativo"
    else ""
  }

  /**
   * Each of the three sentiments has a colour and a text of its own; any other value has
   * neither.
   */
  lemma SentimentBadgeDefined(a: string, b: string)
    ensures SentimentColor(a).Some? <==> SentimentLabel(a) != ""
    ensures SentimentColor(a).Some? && SentimentColor(b).Some? && a != b ==>
      SentimentColor(a) != SentimentColor(b) && SentimentLabel(a) != SentimentLabel(b)
  {
  }
}
