/** The derived values of the dashboard screen (components/Dashboard.tsx): the safety tier of
    the current reading and its caption, the chart's colour, the sensor cards' battery icon
    and the cleaning of the safety-advice text into display lines. */
module Dashboard {
  import opened Types
  import opened Text
  import Constants

  /** `getStatusLabel`'s decision: above 500 is danger, above 200 a warning, anything else safe. */
  function Classify(ppm: int): (r: AlertLevel)
    ensures r == Danger <==> ppm > 500
    ensures r == Caution <==> 200 < ppm <= 500
    ensures r == Safe <==> ppm <= 200
  {
    if ppm > 500 then Danger
    else if ppm > 200 then Caution
    else Safe
  }

  /** The tiers are ordered like the readings: a higher reading never gets a lower tier. */
  function Rank(level: AlertLevel): nat
  {
    match level
    case Safe => 0
    case Caution => 1
    case Danger => 2
  }

  lemma ClassifyMonotone(p: int, q: int)
    requires p <= q
    ensures Rank(Classify(p)) <= Rank(Classify(q))
  {
  }

  /** The caption under the gauge: the current language's entry for the reading's tier. */
  function StatusLabel(ppm: int, lang: Language): (r: string)
    ensures r == Constants.TierCaption(lang, Classify(ppm))
  {
    if ppm > 500 then Constants.TierCaption(lang, Danger)
    else if ppm > 200 then Constants.TierCaption(lang, Caution)
    else Constants.TierCaption(lang, Safe)
  }

  /** Two readings get the same caption exactly when they are in the same tier. */
  lemma StatusLabelSameIffSameTier(p: int, q: int, lang: Language)
    ensures StatusLabel(p, lang) == StatusLabel(q, lang) <==> Classify(p) == Classify(q)
  {
    Constants.TierCaptionInjective(lang, Classify(p), Classify(q));
  }

  /** The two palette colours of the weekly chart's line and gradient stops: the secondary
      orange and the primary navy. */
  datatype ChartColour = Secondary | Primary

  /** The chart is drawn in the secondary orange when the reading is above 200. */
  function ChartColourFor(ppm: int): (r: ChartColour)
    ensures r == Secondary <==> Classify(ppm) != Safe
  {
    if ppm > 200 then Secondary else Primary
  }

  /** A sensor card's battery icon is red below 20 percent. */
  function BatteryIconRed(battery: int): (r: bool)
    ensures r <==> battery <= 19
  {
    battery < 20
  }

  /** The bullets the advice cleaner strips: `•`, `*` and `-`. */
  predicate IsBullet(c: char)
  {
    c == '\U{2022}' || c == '*' || c == '-'
  }

  /** Removes a bullet at the very start of the line together with the whitespace run that
      follows it; any other line is left alone. */
  function StripBullet(line: string): string
  {
    if line != [] && IsBullet(line[0]) then TrimStartSpaces(line[1..]) else line
  }

  /** The cleaned line is a suffix of the original. A line that does not start with a bullet
      is unchanged. A line that does loses that one bullet character and the whole whitespace
      run after it, so the result does not start with whitespace. */
  lemma StripBulletSuffix(line: string)
    ensures |StripBullet(line)| <= |line|
    ensures StripBullet(line) == line[|line| - |StripBullet(line)|..]
    ensures (line == [] || !IsBullet(line[0])) ==> StripBullet(line) == line
    ensures line != [] && IsBullet(line[0]) ==>
      |StripBullet(line)| < |line|
      && (forall i :: 1 <= i < |line| - |StripBullet(line)| ==> IsJsSpace(line[i]))
      && (StripBullet(line) != [] ==> !IsJsSpace(StripBullet(line)[0]))
  {
    if line != [] && IsBullet(line[0]) {
      TrimStartSpacesSuffix(line[1..]);
    }
  }

  /** Conversely: a bullet, any run of whitespace, then text that does not start with
      whitespace, is cleaned to exactly that text. */
  lemma StripBulletOf(bullet: char, spaces: string, text: string)
    requires IsBullet(bullet)
    requires forall i :: 0 <= i < |spaces| ==> IsJsSpace(spaces[i])
    requires text == [] || !IsJsSpace(text[0])
    ensures StripBullet([bullet] + spaces + text) == text
  {
    assert ([bullet] + spaces + text)[1..] == spaces + text;
    TrimStartSpacesOf(spaces, text);
  }

  /** Cleans every piece, keeping their order. */
  function StripAll(pieces: seq<string>): (r: seq<string>)
    ensures |r| == |pieces|
    ensures forall k :: 0 <= k < |r| ==> r[k] == StripBullet(pieces[k])
  {
    if pieces == [] then [] else [StripBullet(pieces[0])] + StripAll(pieces[1..])
  }

  /** The advice panel's lines: the advice split at each newline, each piece cleaned. */
  function AdviceLines(advice: string): seq<string>
  {
    StripAll(Split(advice, '\n'))
  }

  /** The panel shows one line per newline plus one, the k-th being the k-th piece cleaned. */
  lemma AdviceLineCount(advice: string)
    ensures |AdviceLines(advice)| == Count(advice, '\n') + 1
    ensures forall k :: 0 <= k < |AdviceLines(advice)| ==>
      AdviceLines(advice)[k] == StripBullet(Split(advice, '\n')[k])
  {
    SplitPieces(advice, '\n');
  }

  /** A text without newlines is one line; without a leading bullet it is shown unchanged. */
  lemma SingleLineAdvice(advice: string)
    requires '\n' !in advice
    ensures AdviceLines(advice) == [StripBullet(advice)]
    ensures (advice == [] || !IsBullet(advice[0])) ==> AdviceLines(advice) == [advice]
  {
    SplitNoSeparator(advice, '\n');
  }

  /** Two newline-free lines joined by a newline are cleaned one by one. */
  lemma TwoLineAdvice(first: string, second: string)
    requires '\n' !in first && '\n' !in second
    ensures AdviceLines(first + ['\n'] + second) == [StripBullet(first), StripBullet(second)]
  {
    SplitPrefix(first, second, '\n');
    SplitNoSeparator(second, '\n');
    assert Split(first + ['\n'] + second, '\n') == [first, second];
    assert StripAll([second]) == [StripBullet(second)];
  }

  /** A bullet goes together with all the spaces after it. */
  lemma StripBulletExamples()
    ensures StripBullet("* Vent") == "Vent" && StripBullet("-  Call") == "Call"
  {
    StripBulletOf('*', " ", "Vent");
    assert ['*'] + " " + "Vent" == "* Vent";
    StripBulletOf('-', "  ", "Call");
    assert ['-'] + "  " + "Call" == "-  Call";
  }

  /** Only the first bullet goes, and a line without a bullet stays as it is. */
  lemma StripBulletKeepsRest()
    ensures StripBullet("-- x") == "- x"
    ensures StripBullet("Vent") == "Vent"
  {
    assert "-- x"[1..] == "- x";
  }

  /** A bulleted two-line advice text becomes two clean lines. */
  lemma BulletedAdviceExample()
    ensures AdviceLines("* Vent" + ['\n'] + "-  Call") == ["Vent", "Call"]
  {
    TwoLineAdvice("* Vent", "-  Call");
    StripBulletExamples();
  }
}
