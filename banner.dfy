/** The highlighted phase banners of IntegrationTestWatcher.printHeader. */
module Banner {
  import opened Strings

  /** Rule strings: suite start and end and a passed test; phase start and end; failures. */
  const SuiteRule: string := "+"
  const PhaseRule: string := "-"
  const FailureRule: string := "!"

  /**
   * The text printHeader hands to the logger: a blank line, a rule as long as the
   * message, the message, the rule again, and a closing line break.
   */
  function Header(message: string, rc: string): string
  {
    var rule := Repeat(rc, |message|);
    "\n" + rule + "\n" + message + "\n" + rule + "\n"
  }

  /**
   * For a one-line message and a one-character rule that is not a line break, the
   * header reads as five lines: empty, a rule exactly as long as the message and
   * made only of the rule character, the message, the same rule, empty.
   */
  lemma HeaderLayout(message: string, c: char)
    requires '\n' !in message && c != '\n'
    ensures var ls := Lines(Header(message, [c]));
      |ls| == 5 && ls[0] == "" && ls[2] == message && ls[4] == ""
      && ls[1] == ls[3] && |ls[1]| == |message|
      && forall i :: 0 <= i < |message| ==> ls[1][i] == c
  {
    var rule := Repeat([c], |message|);
    RepeatChar(c, |message|);
    assert '\n' !in rule by {
      forall i | 0 <= i < |rule| ensures rule[i] != '\n' { }
    }
    calc {
      Lines(Header(message, [c]));
      { assert Header(message, [c]) == "" + "\n" + (rule + "\n" + (message + "\n" + (rule + "\n" + ""))); }
      Lines("" + "\n" + (rule + "\n" + (message + "\n" + (rule + "\n" + ""))));
      { LinesOfLineThen("", rule + "\n" + (message + "\n" + (rule + "\n" + ""))); }
      [""] + Lines(rule + "\n" + (message + "\n" + (rule + "\n" + "")));
      { LinesOfLineThen(rule, message + "\n" + (rule + "\n" + "")); }
      [""] + ([rule] + Lines(message + "\n" + (rule + "\n" + "")));
      { LinesOfLineThen(message, rule + "\n" + ""); }
      [""] + ([rule] + ([message] + Lines(rule + "\n" + "")));
      { LinesOfLineThen(rule, ""); }
      [""] + ([rule] + ([message] + ([rule] + Lines(""))));
      [""] + ([rule] + ([message] + ([rule] + [""])));
    }
  }

  /** printHeader("ABC", "-") in full. */
  lemma HeaderExample()
    ensures Header("ABC", PhaseRule) == "\n---\nABC\n---\n"
    ensures Lines(Header("ABC", PhaseRule)) == ["", "---", "ABC", "---", ""]
  {
    HeaderLayout("ABC", '-');
    var ls := Lines(Header("ABC", PhaseRule));
    assert ls[1] == "---";
  }
}
