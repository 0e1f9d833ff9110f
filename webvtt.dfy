// Captions for a recording's transcript: the WebVTT text built from the
// speech recogniser's utterances (the "WebVTT file structure" of section 4.1
// of the W3C WebVTT format) and its timestamps. Times are whole
// milliseconds.
module WebVtt {
  import opened Wrappers
  import opened Text

  // ------------------------------------------------------------ timestamps

  const MS_PER_DAY: nat := 86_400_000

  /** The decimal rendering of a number below 100 has at most two digits, below 1000 at most three. */
  lemma {:induction false} DecimalShort(n: nat)
    ensures n < 10 ==> |Decimal(n)| == 1
    ensures n < 100 ==> |Decimal(n)| <= 2
    ensures n < 1000 ==> |Decimal(n)| <= 3
  {
    if n >= 10 {
      DecimalShort(n / 10);
    }
  }

  /** The UTC clock reading `ms` after the epoch: hours of the day, minutes, seconds, milliseconds. */
  datatype Clock = Clock(hours: nat, minutes: nat, seconds: nat, millis: nat)

  function ClockOf(ms: nat): (c: Clock)
    ensures c.hours < 24 && c.minutes < 60 && c.seconds < 60 && c.millis < 1000
    ensures c.hours * 3_600_000 + c.minutes * 60_000 + c.seconds * 1000 + c.millis == ms % MS_PER_DAY
  {
    var d := ms % MS_PER_DAY;
    var inHour := d % 3_600_000;
    var inMinute := inHour % 60_000;
    Clock(d / 3_600_000, inHour / 60_000, inMinute / 1000, inMinute % 1000)
  }

  /** "HH:MM:SS.mmm" for a clock reading, each field zero-padded. */
  function Stamp(c: Clock): (s: string)
    requires c.hours < 100 && c.minutes < 100 && c.seconds < 100 && c.millis < 1000
    ensures |s| == 12
  {
    DecimalShort(c.hours);
    DecimalShort(c.minutes);
    DecimalShort(c.seconds);
    DecimalShort(c.millis);
    ZeroPadShape(c.hours, 2);
    ZeroPadShape(c.minutes, 2);
    ZeroPadShape(c.seconds, 2);
    ZeroPadShape(c.millis, 3);
    ZeroPad(c.hours, 2) + ":" + ZeroPad(c.minutes, 2) + ":" + ZeroPad(c.seconds, 2) + "." + ZeroPad(c.millis, 3)
  }

  /**
   * `formatTimestamp`: "HH:MM:SS.mmm" of the UTC clock time `ms` after the
   * epoch, so whole days are dropped and the hours wrap at 24.
   */
  function FormatTimestamp(ms: nat): (s: string)
    ensures |s| == 12
  {
    Stamp(ClockOf(ms))
  }

  /** Whether `s` holds `n` digits from position `i` on. */
  predicate DigitsAt(s: string, i: nat, n: nat)
    requires i + n <= |s|
  {
    forall k :: i <= k < i + n ==> IsDigit(s[k])
  }

  /** The value of the `n` digits of `s` from position `i` on, most significant first. */
  function ValueAt(s: string, i: nat, n: nat): nat
    requires i + n <= |s| && DigitsAt(s, i, n)
    decreases n
  {
    if n == 0 then 0 else ValueAt(s, i, n - 1) * 10 + DigitValue(s[i + n - 1])
  }

  /** The fields of a "HH:MM:SS.mmm" timestamp read back as milliseconds. */
  function ParseTimestamp(s: string): Option<nat>
  {
    if |s| == 12 && s[2] == ':' && s[5] == ':' && s[8] == '.' &&
       DigitsAt(s, 0, 2) && DigitsAt(s, 3, 2) && DigitsAt(s, 6, 2) && DigitsAt(s, 9, 3)
    then Some(ValueAt(s, 0, 2) * 3_600_000 + ValueAt(s, 3, 2) * 60_000 + ValueAt(s, 6, 2) * 1000 + ValueAt(s, 9, 3))
    else None
  }

  /** A two-digit field sitting at position `i` of `s` reads back as its value. */
  lemma {:induction false} TwoDigitsAt(s: string, i: nat, a: string)
    requires |a| == 2 && AllDigits(a) && i + 2 <= |s| && s[i] == a[0] && s[i + 1] == a[1]
    ensures DigitsAt(s, i, 2) && ValueAt(s, i, 2) == DigitsValue(a)
  {
    assert a[..1][..0] == [];
    assert DigitsValue(a[..1]) == DigitValue(a[0]);
    assert DigitsValue(a) == DigitValue(a[0]) * 10 + DigitValue(a[1]);
    assert ValueAt(s, i, 1) == DigitValue(s[i]);
  }

  /** A three-digit field sitting at position `i` of `s` reads back as its value. */
  lemma {:induction false} ThreeDigitsAt(s: string, i: nat, a: string)
    requires |a| == 3 && AllDigits(a) && i + 3 <= |s| && s[i] == a[0] && s[i + 1] == a[1] && s[i + 2] == a[2]
    ensures DigitsAt(s, i, 3) && ValueAt(s, i, 3) == DigitsValue(a)
  {
    TwoDigitsAt(s, i, a[..2]);
  }

  /** A timestamp whose fields hold the values `h`, `m`, `sec` and `ms` reads back as their total. */
  lemma {:induction false} ParseAt(s: string, h: nat, m: nat, sec: nat, ms: nat)
    requires |s| == 12 && s[2] == ':' && s[5] == ':' && s[8] == '.'
    requires DigitsAt(s, 0, 2) && DigitsAt(s, 3, 2) && DigitsAt(s, 6, 2) && DigitsAt(s, 9, 3)
    requires ValueAt(s, 0, 2) == h && ValueAt(s, 3, 2) == m && ValueAt(s, 6, 2) == sec && ValueAt(s, 9, 3) == ms
    ensures ParseTimestamp(s) == Some(h * 3_600_000 + m * 60_000 + sec * 1000 + ms)
  {
  }

  /** A zero-padded field that fits its width holds exactly `width` digits worth `n`. */
  lemma {:induction false} PaddedField(n: nat, width: nat)
    requires (width == 2 && n < 100) || (width == 3 && n < 1000)
    ensures |ZeroPad(n, width)| == width && AllDigits(ZeroPad(n, width)) && DigitsValue(ZeroPad(n, width)) == n
  {
    DecimalShort(n);
    ZeroPadShape(n, width);
  }

  /** Where each field's characters and each separator sit in "HH:MM:SS.mmm". */
  lemma {:induction false} StampLayout(h: string, m: string, sec: string, ms: string)
    requires |h| == 2 && |m| == 2 && |sec| == 2 && |ms| == 3
    ensures var s := h + ":" + m + ":" + sec + "." + ms;
      |s| == 12 && s[2] == ':' && s[5] == ':' && s[8] == '.' &&
      s[0] == h[0] && s[1] == h[1] && s[3] == m[0] && s[4] == m[1] &&
      s[6] == sec[0] && s[7] == sec[1] && s[9] == ms[0] && s[10] == ms[1] && s[11] == ms[2]
  {
  }

  /** The printed clock reading has its separators in place and each field holds that field's value. */
  lemma {:induction false} StampFieldsRead(c: Clock)
    requires c.hours < 100 && c.minutes < 100 && c.seconds < 100 && c.millis < 1000
    ensures var s := Stamp(c);
      |s| == 12 && s[2] == ':' && s[5] == ':' && s[8] == '.' &&
      DigitsAt(s, 0, 2) && DigitsAt(s, 3, 2) && DigitsAt(s, 6, 2) && DigitsAt(s, 9, 3) &&
      ValueAt(s, 0, 2) == c.hours && ValueAt(s, 3, 2) == c.minutes &&
      ValueAt(s, 6, 2) == c.seconds && ValueAt(s, 9, 3) == c.millis
  {
    var h, m, sec, ms := ZeroPad(c.hours, 2), ZeroPad(c.minutes, 2), ZeroPad(c.seconds, 2), ZeroPad(c.millis, 3);
    PaddedField(c.hours, 2);
    PaddedField(c.minutes, 2);
    PaddedField(c.seconds, 2);
    PaddedField(c.millis, 3);
    var s := h + ":" + m + ":" + sec + "." + ms;
    assert Stamp(c) == s;
    StampLayout(h, m, sec, ms);
    TwoDigitsAt(s, 0, h);
    TwoDigitsAt(s, 3, m);
    TwoDigitsAt(s, 6, sec);
    ThreeDigitsAt(s, 9, ms);
  }

  /** A clock reading printed and read back gives its fields' total in milliseconds. */
  lemma {:induction false} StampRoundTrip(c: Clock)
    requires c.hours < 100 && c.minutes < 100 && c.seconds < 100 && c.millis < 1000
    ensures ParseTimestamp(Stamp(c)) == Some(c.hours * 3_600_000 + c.minutes * 60_000 + c.seconds * 1000 + c.millis)
  {
    StampFieldsRead(c);
    ParseAt(Stamp(c), c.hours, c.minutes, c.seconds, c.millis);
  }

  /** Reading a timestamp back gives the time of day it was made from. */
  lemma {:induction false} TimestampRoundTrip(ms: nat)
    ensures ParseTimestamp(FormatTimestamp(ms)) == Some(ms % MS_PER_DAY)
  {
    StampRoundTrip(ClockOf(ms));
  }

  /** Timestamps a whole day apart print the same. */
  lemma {:induction false} DayWraps(ms: nat)
    ensures FormatTimestamp(ms + MS_PER_DAY) == FormatTimestamp(ms)
  {
    assert (ms + MS_PER_DAY) % MS_PER_DAY == ms % MS_PER_DAY;
  }

  // ------------------------------------------------------------------ cues

  /** A recognised word: its text, its punctuated form, and when it starts and ends. */
  datatype Word = Word(text: string, punctuated: string, start: nat, end: nat)

  /** A caption: its time span and its words. */
  datatype Cue = Cue(start: nat, end: nat, words: seq<string>)

  const MAX_CUE_WORDS: nat := 8
  /** A pause longer than this, in milliseconds, ends a cue. */
  const MAX_PAUSE_MS: int := 500

  function Texts(ws: seq<Word>): (r: seq<string>)
    ensures |r| == |ws| && forall k {:trigger r[k]} :: 0 <= k < |ws| ==> r[k] == ws[k].text
  {
    seq(|ws|, k requires 0 <= k < |ws| => ws[k].text)
  }

  /**
   * Whether a cue closes after `word`, given the word after it (if any) and
   * the cue's word count so far: the punctuated form ends in ',' or '.',
   * the next word starts more than half a second after this one ends, or
   * the cue has reached eight words.
   */
  predicate ClosesAfter(word: Word, following: Option<Word>, count: nat)
  {
    EndsIn(word.punctuated, ',') || EndsIn(word.punctuated, '.') ||
    (following.Some? && following.value.start as int - word.end as int > MAX_PAUSE_MS) ||
    count == MAX_CUE_WORDS
  }

  /** `endsWith` for a one-character suffix. */
  predicate EndsIn(s: string, c: char)
  {
    |s| > 0 && s[|s| - 1] == c
  }

  function Following(words: seq<Word>, j: nat): Option<Word>
  {
    if j + 1 < |words| then Some(words[j + 1]) else None
  }

  /** Whether the cue that began at word `from` closes after word `j`. */
  predicate ClosesAt(words: seq<Word>, from: nat, j: nat)
    requires from <= j < |words|
  {
    ClosesAfter(words[j], Following(words, j), j + 1 - from)
  }

  /** The first word at or after `j` after which the cue begun at `from` closes. */
  function FirstClose(words: seq<Word>, from: nat, j: nat): (r: Option<nat>)
    requires from <= j
    ensures r.Some? ==> j <= r.value < |words| && ClosesAt(words, from, r.value)
    decreases |words| - j
  {
    if j >= |words| then None
    else if ClosesAt(words, from, j) then Some(j)
    else FirstClose(words, from, j + 1)
  }

  /** No word before the first closing point closes the cue; with none, no word from `j` on does. */
  lemma {:induction false} FirstCloseIsFirst(words: seq<Word>, from: nat, j: nat)
    requires from <= j
    ensures var r := FirstClose(words, from, j);
      (r.Some? ==> forall k :: j <= k < r.value ==> !ClosesAt(words, from, k)) &&
      (r.None? ==> forall k :: j <= k < |words| ==> !ClosesAt(words, from, k))
    decreases |words| - j
  {
    if j < |words| && !ClosesAt(words, from, j) {
      FirstCloseIsFirst(words, from, j + 1);
    }
  }

  /** A cue begun at `from` closes within eight words, if at all. */
  lemma {:induction false} CueWithinEight(words: seq<Word>, from: nat)
    requires FirstClose(words, from, from).Some?
    ensures FirstClose(words, from, from).value < from + MAX_CUE_WORDS
  {
    var k := FirstClose(words, from, from).value;
    FirstCloseIsFirst(words, from, from);
    if k >= from + MAX_CUE_WORDS {
      assert ClosesAt(words, from, from + MAX_CUE_WORDS - 1);
    }
  }

  /**
   * The cues of one utterance's words from word `from` on: each runs from
   * its first word's start to the end of the word it closes after; words
   * after the last closing point make no cue.
   */
  function CuesFrom(words: seq<Word>, from: nat): seq<Cue>
    decreases |words| - from
  {
    if from >= |words| then []
    else
      match FirstClose(words, from, from)
      case None => []
      case Some(j) => [Cue(words[from].start, words[j].end, Texts(words[from..j + 1]))] + CuesFrom(words, j + 1)
  }

  function Flatten(cues: seq<Cue>): seq<string>
  {
    if cues == [] then [] else cues[0].words + Flatten(cues[1..])
  }

  /** Every cue holds one to eight words, and the first starts when the first word does. */
  lemma {:induction false} CueSizes(words: seq<Word>, from: nat)
    ensures var cues := CuesFrom(words, from);
      (forall k :: 0 <= k < |cues| ==> 1 <= |cues[k].words| <= MAX_CUE_WORDS) &&
      (cues != [] ==> from < |words| && cues[0].start == words[from].start)
    decreases |words| - from
  {
    if from < |words| && FirstClose(words, from, from).Some? {
      var j := FirstClose(words, from, from).value;
      CueWithinEight(words, from);
      CueSizes(words, j + 1);
    }
  }

  /** `f` is the texts of the words from `from` on, in order, as far as it reaches. */
  predicate ReadsFrom(words: seq<Word>, from: nat, f: seq<string>)
  {
    (from + |f| <= |words| || f == []) &&
    forall k :: 0 <= k < |f| ==> from + k < |words| && f[k] == words[from + k].text
  }

  /** The texts of words `from..j` followed by a run read from `j + 1` read from `from`. */
  lemma {:induction false} ReadsOn(words: seq<Word>, from: nat, j: nat, rest: seq<string>)
    requires from <= j < |words| && ReadsFrom(words, j + 1, rest)
    ensures ReadsFrom(words, from, Texts(words[from..j + 1]) + rest)
  {
    var head := Texts(words[from..j + 1]);
    forall k | 0 <= k < |head + rest|
      ensures from + k < |words| && (head + rest)[k] == words[from + k].text
    {
      if k >= |head| {
        assert (head + rest)[k] == rest[k - |head|];
      }
    }
  }

  /** The cues' words, in order, are the utterance's words from `from` on, up to where the last cue closes. */
  lemma {:induction false} CuesKeepWordOrder(words: seq<Word>, from: nat)
    ensures ReadsFrom(words, from, Flatten(CuesFrom(words, from)))
    decreases |words| - from
  {
    if from < |words| && FirstClose(words, from, from).Some? {
      var j := FirstClose(words, from, from).value;
      CuesKeepWordOrder(words, j + 1);
      var c := Cue(words[from].start, words[j].end, Texts(words[from..j + 1]));
      assert CuesFrom(words, from) == [c] + CuesFrom(words, j + 1);
      FlattenCons(c, CuesFrom(words, j + 1));
      ReadsOn(words, from, j, Flatten(CuesFrom(words, j + 1)));
    }
  }

  /** One utterance whose last word ends in '?': no closing point, so none of its words is captioned. */
  lemma {:induction false} UnclosedTailDropped()
    ensures var words := [Word("Is", "Is", 0, 200), Word("it", "it?", 300, 500)];
      CuesFrom(words, 0) == []
  {
    var words := [Word("Is", "Is", 0, 200), Word("it", "it?", 300, 500)];
    assert !ClosesAt(words, 0, 0) && !ClosesAt(words, 0, 1);
  }

  /** The cues with the remaining words flushed into a last cue, as a caption file evidently means to hold. */
  function FlushedCues(words: seq<Word>, from: nat): seq<Cue>
    decreases |words| - from
  {
    if from >= |words| then []
    else
      match FirstClose(words, from, from)
      case None => [Cue(words[from].start, words[|words| - 1].end, Texts(words[from..]))]
      case Some(j) => [Cue(words[from].start, words[j].end, Texts(words[from..j + 1]))] + FlushedCues(words, j + 1)
  }

  /** A closing point at `j` makes the words up to `j` the first flushed cue. */
  lemma {:induction false} FlushedCuesUnfold(words: seq<Word>, from: nat, j: nat)
    requires from < |words| && FirstClose(words, from, from) == Some(j)
    ensures FlushedCues(words, from) == [Cue(words[from].start, words[j].end, Texts(words[from..j + 1]))] + FlushedCues(words, j + 1)
  {
    assert from < |words| && FirstClose(words, from, from).Some? && FirstClose(words, from, from).value == j;
  }

  lemma {:induction false} FlattenCons(c: Cue, rest: seq<Cue>)
    ensures Flatten([c] + rest) == c.words + Flatten(rest)
  {
    assert ([c] + rest)[1..] == rest;
  }

  lemma {:induction false} TextsConcat(a: seq<Word>, b: seq<Word>)
    ensures Texts(a + b) == Texts(a) + Texts(b)
  {
  }

  /** The texts of one more word of a run. */
  lemma {:induction false} TextsSnoc(words: seq<Word>, g: nat, i: nat)
    requires g <= i < |words|
    ensures Texts(words[g..i + 1]) == Texts(words[g..i]) + [words[i].text]
  {
    assert words[g..i + 1] == words[g..i] + [words[i]];
    TextsConcat(words[g..i], [words[i]]);
  }

  /** With the flush every word of the utterance is captioned, in order. */
  lemma {:induction false} FlushedCuesKeepAllWords(words: seq<Word>, from: nat)
    requires from <= |words|
    ensures Flatten(FlushedCues(words, from)) == Texts(words[from..])
    decreases |words| - from
  {
    if from == |words| {
      assert Texts(words[from..]) == [];
    } else if FirstClose(words, from, from).None? {
      FlushedLast(words, from);
    } else {
      var j := FirstClose(words, from, from).value;
      FlushedCuesKeepAllWords(words, j + 1);
      FlushedHead(words, from, j);
    }
  }

  /** Without a closing point, the one flushed cue holds all the words. */
  lemma {:induction false} FlushedLast(words: seq<Word>, from: nat)
    requires from < |words| && FirstClose(words, from, from).None?
    ensures Flatten(FlushedCues(words, from)) == Texts(words[from..])
  {
    var c := Cue(words[from].start, words[|words| - 1].end, Texts(words[from..]));
    assert FlushedCues(words, from) == [c] + [];
    FlattenCons(c, []);
  }

  /** A first cue closing at `j`, followed by all the words after `j`, holds all the words. */
  lemma {:induction false} FlushedHead(words: seq<Word>, from: nat, j: nat)
    requires from < |words| && FirstClose(words, from, from) == Some(j)
    requires Flatten(FlushedCues(words, j + 1)) == Texts(words[j + 1..])
    ensures Flatten(FlushedCues(words, from)) == Texts(words[from..])
  {
    var c := Cue(words[from].start, words[j].end, Texts(words[from..j + 1]));
    calc {
      Flatten(FlushedCues(words, from));
      { FlushedCuesUnfold(words, from, j); }
      Flatten([c] + FlushedCues(words, j + 1));
      { FlattenCons(c, FlushedCues(words, j + 1)); }
      Texts(words[from..j + 1]) + Texts(words[j + 1..]);
      { TextsConcat(words[from..j + 1], words[j + 1..]); }
      Texts(words[from..j + 1] + words[j + 1..]);
      { assert words[from..j + 1] + words[j + 1..] == words[from..]; }
      Texts(words[from..]);
    }
  }

  /** Every cue holds one to eight words. */
  predicate SizesWithin(cues: seq<Cue>)
  {
    forall k :: 0 <= k < |cues| ==> 1 <= |cues[k].words| <= MAX_CUE_WORDS
  }

  lemma {:induction false} SizesCons(head: Cue, rest: seq<Cue>)
    requires 1 <= |head.words| <= MAX_CUE_WORDS && SizesWithin(rest)
    ensures SizesWithin([head] + rest)
  {
    forall k | 0 <= k < |[head] + rest|
      ensures 1 <= |([head] + rest)[k].words| <= MAX_CUE_WORDS
    {
      if k > 0 {
        assert ([head] + rest)[k] == rest[k - 1];
      }
    }
  }

  /** Without a closing point the words from `from` on are at most eight, so the one flushed cue fits. */
  lemma {:induction false} FlushedLastSize(words: seq<Word>, from: nat)
    requires from < |words| && FirstClose(words, from, from).None?
    ensures SizesWithin(FlushedCues(words, from))
  {
    if |words| - from > MAX_CUE_WORDS {
      FirstCloseIsFirst(words, from, from);
      assert ClosesAt(words, from, from + MAX_CUE_WORDS - 1);
      assert false;
    }
    assert FlushedCues(words, from) == [Cue(words[from].start, words[|words| - 1].end, Texts(words[from..]))];
  }

  /** With the flush no cue is empty or longer than eight words either. */
  lemma {:induction false} FlushedCueSizes(words: seq<Word>, from: nat)
    ensures SizesWithin(FlushedCues(words, from))
    decreases |words| - from
  {
    if from < |words| {
      if FirstClose(words, from, from).None? {
        FlushedLastSize(words, from);
      } else {
        var j := FirstClose(words, from, from).value;
        CueWithinEight(words, from);
        FlushedCueSizes(words, j + 1);
        FlushedCuesUnfold(words, from, j);
        SizesCons(Cue(words[from].start, words[j].end, Texts(words[from..j + 1])), FlushedCues(words, j + 1));
      }
    }
  }

  /** For the utterance above the flushed cues caption both words. */
  lemma {:induction false} FlushCaptionsTail()
    ensures var words := [Word("Is", "Is", 0, 200), Word("it", "it?", 300, 500)];
      FlushedCues(words, 0) == [Cue(0, 500, ["Is", "it"])]
  {
    var words := [Word("Is", "Is", 0, 200), Word("it", "it?", 300, 500)];
    UnclosedTailDropped();
    assert FirstClose(words, 0, 0).None?;
    assert words[0..] == words;
    assert Texts(words) == ["Is", "it"];
  }

  // ------------------------------------------------------------- rendering

  const HEADER: string := "WEBVTT\n\n"

  /** One cue block: its number, its time span, its words joined by spaces, a blank line. */
  function CueText(index: nat, c: Cue): string
  {
    Decimal(index) + "\n" + FormatTimestamp(c.start) + " --> " + FormatTimestamp(c.end) + "\n" +
    Join(c.words, ' ') + "\n\n"
  }

  /**
   * The blocks of `cues` one after the other, numbered from `first`, each
   * written by `block` from its number and its cue.
   */
  function Blocks(block: (nat, Cue) -> string, cues: seq<Cue>, first: nat): string
  {
    if cues == [] then ""
    else Blocks(block, cues[..|cues| - 1], first) + block(first + |cues| - 1, cues[|cues| - 1])
  }

  lemma {:induction false} BlocksOneMore(block: (nat, Cue) -> string, cues: seq<Cue>, c: Cue, first: nat)
    ensures Blocks(block, cues + [c], first) == Blocks(block, cues, first) + block(first + |cues|, c)
  {
    assert (cues + [c])[..|cues|] == cues;
  }

  lemma {:induction false} BlocksAppend(block: (nat, Cue) -> string, a: seq<Cue>, b: seq<Cue>, first: nat)
    ensures Blocks(block, a + b, first) == Blocks(block, a, first) + Blocks(block, b, first + |a|)
    decreases |b|
  {
    if b == [] {
      assert a + b == a;
    } else {
      var b', c := b[..|b| - 1], b[|b| - 1];
      assert b == b' + [c];
      assert a + b == (a + b') + [c];
      var x, y, z := Blocks(block, a, first), Blocks(block, b', first + |a|), block(first + |a| + |b'|, c);
      calc {
        Blocks(block, a + b, first);
        Blocks(block, (a + b') + [c], first);
        { BlocksOneMore(block, a + b', c, first); }
        Blocks(block, a + b', first) + z;
        { BlocksAppend(block, a, b', first); }
        (x + y) + z;
        x + (y + z);
        { BlocksOneMore(block, b', c, first + |a|); }
        x + Blocks(block, b, first + |a|);
      }
    }
  }

  lemma {:induction false} BlocksFront(block: (nat, Cue) -> string, c: Cue, rest: seq<Cue>, first: nat)
    ensures Blocks(block, [c] + rest, first) == block(first, c) + Blocks(block, rest, first + 1)
  {
    calc {
      Blocks(block, [c] + rest, first);
      { BlocksAppend(block, [c], rest, first); }
      Blocks(block, [c], first) + Blocks(block, rest, first + 1);
      { BlocksOneMore(block, [], c, first); assert [] + [c] == [c]; }
      ("" + block(first, c)) + Blocks(block, rest, first + 1);
      { assert "" + block(first, c) == block(first, c); }
      block(first, c) + Blocks(block, rest, first + 1);
    }
  }

  /** The caption blocks of `cues`, numbered from `first`. */
  function RenderCues(cues: seq<Cue>, first: nat): string
  {
    Blocks(CueText, cues, first)
  }

  /** Rendering one more cue of a list adds its block, numbered after the others. */
  lemma {:induction false} RenderNext(cues: seq<Cue>, n: nat, first: nat)
    requires n < |cues|
    ensures RenderCues(cues[..n + 1], first) == RenderCues(cues[..n], first) + CueText(first + n, cues[n])
  {
    assert cues[..n + 1] == cues[..n] + [cues[n]];
    BlocksOneMore(CueText, cues[..n], cues[n], first);
  }

  /** Numbering runs on: rendering two lists one after the other numbers the second from where the first stopped. */
  lemma {:induction false} RenderCuesAppend(a: seq<Cue>, b: seq<Cue>, first: nat)
    ensures RenderCues(a + b, first) == RenderCues(a, first) + RenderCues(b, first + |a|)
  {
    BlocksAppend(CueText, a, b, first);
  }

  /** The first block carries the number `first`, the rest follow from `first + 1`. */
  lemma {:induction false} RenderCuesFront(c: Cue, rest: seq<Cue>, first: nat)
    ensures RenderCues([c] + rest, first) == CueText(first, c) + RenderCues(rest, first + 1)
  {
    BlocksFront(CueText, c, rest, first);
  }

  /** The cues of all utterances, in order. */
  function AllCues(utterances: seq<seq<Word>>): seq<Cue>
  {
    if utterances == [] then []
    else AllCues(utterances[..|utterances| - 1]) + CuesFrom(utterances[|utterances| - 1], 0)
  }

  predicate HasEmptyUtterance(utterances: seq<seq<Word>>)
  {
    exists k :: 0 <= k < |utterances| && utterances[k] == []
  }

  /**
   * The caption file for the utterances: the header, then every cue
   * numbered from 1 across all utterances. An utterance without words makes
   * the builder fail (it reads the start of a first word that is missing).
   */
  function WebVttFile(utterances: seq<seq<Word>>): (r: Option<string>)
    ensures r.Some? ==> |r.value| >= |HEADER| && r.value[..|HEADER|] == HEADER
    ensures r.None? <==> HasEmptyUtterance(utterances)
  {
    if HasEmptyUtterance(utterances) then None
    else Some(HEADER + RenderCues(AllCues(utterances), 1))
  }

  /** An utterance with words keeps the utterances so far free of empty ones. */
  lemma {:induction false} NoEmptyExtend(utterances: seq<seq<Word>>, u: nat)
    requires u < |utterances| && utterances[u] != [] && !HasEmptyUtterance(utterances[..u])
    ensures !HasEmptyUtterance(utterances[..u + 1])
  {
    forall k | 0 <= k < u + 1
      ensures utterances[k] != []
    {
      if k < u { assert utterances[..u][k] == utterances[k]; }
    }
  }

  /** The cues of one more utterance follow those of the utterances before it. */
  lemma {:induction false} AllCuesNext(utterances: seq<seq<Word>>, u: nat)
    requires u < |utterances|
    ensures AllCues(utterances[..u + 1]) == AllCues(utterances[..u]) + CuesFrom(utterances[u], 0)
  {
    assert utterances[..u + 1][..u] == utterances[..u];
  }

  /** The file text grows by the blocks of the new cues, numbered on from the others. */
  lemma {:induction false} FileGrows(before: seq<Cue>, cues: seq<Cue>)
    ensures HEADER + RenderCues(before + cues, 1) == (HEADER + RenderCues(before, 1)) + RenderCues(cues, 1 + |before|)
  {
    RenderCuesAppend(before, cues, 1);
  }

  /**
   * `formatToWebVTT`: walks every utterance word by word, collecting words
   * into a group and writing a numbered cue whenever the group closes.
   */
  method FormatToWebVtt(utterances: seq<seq<Word>>) returns (r: Option<string>)
    ensures r == WebVttFile(utterances)
  {
    var output := HEADER;
    var captionIndex := 1;
    var u := 0;
    while u < |utterances|
      invariant 0 <= u <= |utterances|
      invariant !HasEmptyUtterance(utterances[..u])
      invariant output == HEADER + RenderCues(AllCues(utterances[..u]), 1)
      invariant captionIndex == 1 + |AllCues(utterances[..u])|
    {
      var words := utterances[u];
      if words == [] {
        assert utterances[u] == [];
        assert HasEmptyUtterance(utterances);
        return None;
      }
      var cues := UtteranceCues(words);
      var text;
      text, captionIndex := WriteCues(cues, captionIndex);
      NoEmptyExtend(utterances, u);
      AllCuesNext(utterances, u);
      FileGrows(AllCues(utterances[..u]), cues);
      output := output + text;
      u := u + 1;
    }
    assert utterances[..u] == utterances;
    r := Some(output);
  }

  /**
   * The inner loop of `formatToWebVTT` over one utterance's words: the
   * words are collected into a group, and the group becomes a cue whenever
   * it closes.
   */
  method UtteranceCues(words: seq<Word>) returns (cues: seq<Cue>)
    requires words != []
    ensures cues == CuesFrom(words, 0)
  {
    cues := [];
    ghost var g: nat := 0;
    var group: seq<string> := [];
    var start := words[0].start;
    var wordCount: nat := 0;
    var i := 0;
    while i < |words|
      invariant 0 <= g <= i <= |words| && wordCount == i - g && wordCount < MAX_CUE_WORDS
      invariant group == Texts(words[g..i])
      invariant i < |words| ==> start == words[g].start
      invariant g < |words| ==> FirstClose(words, g, g) == FirstClose(words, g, i)
      invariant CuesFrom(words, 0) == cues + CuesFrom(words, g)
    {
      var word := words[i];
      TextsSnoc(words, g, i);
      group := group + [word.text];
      wordCount := wordCount + 1;
      if ClosesAfter(word, Following(words, i), wordCount) {
        var cue := Cue(start, word.end, group);
        CloseStep(words, g, i, group, cues);
        cues := cues + [cue];
        group := [];
        start := if i + 1 < |words| then words[i + 1].start else start;
        wordCount := 0;
        g := i + 1;
        assert FirstClose(words, g, g) == FirstClose(words, g, i + 1);
      } else {
        SkipWord(words, g, i);
        assert FirstClose(words, g, g) == FirstClose(words, g, i + 1);
      }
      i := i + 1;
    }
    NoCloseLeft(words, g);
    assert cues + [] == cues;
  }

  /** The output `formatToWebVTT` writes for closed cues: one numbered block each, numbered from `index`, and the next number. */
  method WriteCues(cues: seq<Cue>, index: nat) returns (text: string, next: nat)
    ensures text == RenderCues(cues, index)
    ensures next == index + |cues|
  {
    text := "";
    next := index;
    var n := 0;
    while n < |cues|
      invariant 0 <= n <= |cues| && next == index + n
      invariant text == RenderCues(cues[..n], index)
    {
      text := AppendBlock(text, cues, n, index);
      next := next + 1;
      n := n + 1;
    }
    assert cues[..n] == cues;
  }

  /** Writes the block of cue `n` after the blocks of the cues before it. */
  method AppendBlock(text: string, cues: seq<Cue>, n: nat, index: nat) returns (r: string)
    requires n < |cues| && text == RenderCues(cues[..n], index)
    ensures r == RenderCues(cues[..n + 1], index)
  {
    RenderNext(cues, n, index);
    r := text + CueText(index + n, cues[n]);
  }

  /** A word the cue does not close after leaves the first closing point where it was. */
  lemma {:induction false} SkipWord(words: seq<Word>, g: nat, i: nat)
    requires g <= i < |words| && !ClosesAt(words, g, i)
    ensures FirstClose(words, g, i) == FirstClose(words, g, i + 1)
  {
  }

  /** Closing the cue begun at `g` after word `i`, whose words are `group`, yields its cue, then the cues from `i + 1`. */
  lemma {:induction false} CloseStep(words: seq<Word>, g: nat, i: nat, group: seq<string>, before: seq<Cue>)
    requires g <= i < |words| && FirstClose(words, g, g) == Some(i)
    requires group == Texts(words[g..i + 1])
    ensures CuesFrom(words, g) == [Cue(words[g].start, words[i].end, group)] + CuesFrom(words, i + 1)
    ensures before + CuesFrom(words, g) == (before + [Cue(words[g].start, words[i].end, group)]) + CuesFrom(words, i + 1)
  {
  }

  /** With no closing point left, the words from `g` on make no cue. */
  lemma {:induction false} NoCloseLeft(words: seq<Word>, g: nat)
    requires g <= |words|
    requires g < |words| ==> FirstClose(words, g, g).None?
    ensures CuesFrom(words, g) == []
  {
  }
}
