/** The script language: lines, whole scripts, and a printer that the parser undoes. script.hpp. */
module Script {
  import opened Words
  import opened Text
  import opened Keys
  import opened Tokens

  datatype KeyAction = Tap | Press | Release
  datatype ButtonAction = Click | Hold | LetGo

  datatype ScriptCommand =
    | TypeText(text: string)
    | PressKey(keyAction: KeyAction, combo: KeyCombo)
    | Move(dx: i16, dy: i16)
    | Button(buttonAction: ButtonAction, button: byte)
    | Wheel(delta: i8)
    | Wait(ms: u32)
    | Stop

  datatype ScriptError =
    | BadWords(token: TokenError)
    | WrongArguments
    | UnknownCommand
    | UnknownAction
    | BadKey(key: KeyError)
    | BadNumber(number: NumberError)

  type Line = Result<Option<ScriptCommand>, ScriptError>
  type Commands = Result<seq<ScriptCommand>, ScriptError>

  function KeyActionOf(name: string): Result<KeyAction, ScriptError> {
    match UpperAll(name)
    case "TAP" => Ok(Tap)
    case "DOWN" => Ok(Press)
    case "UP" => Ok(Release)
    case _ => Err(UnknownAction)
  }

  function KeyCommand(words: seq<string>): Result<ScriptCommand, ScriptError> {
    if |words| != 3 then Err(WrongArguments)
    else
      match KeyActionOf(words[1])
      case Err(e) => Err(e)
      case Ok(action) =>
        match Combo(words[2])
        case Err(e) => Err(BadKey(e))
        case Ok(combo) => Ok(PressKey(action, combo))
  }

  function MoveCommand(words: seq<string>): Result<ScriptCommand, ScriptError> {
    if |words| != 4 then Err(WrongArguments)
    else
      match RangedInteger(words[2], -0x8000, 0x7FFF)
      case Err(e) => Err(BadNumber(e))
      case Ok(dx) =>
        match RangedInteger(words[3], -0x8000, 0x7FFF)
        case Err(e) => Err(BadNumber(e))
        case Ok(dy) => Ok(Move(dx, dy))
  }

  function ButtonCommand(action: ButtonAction, words: seq<string>): Result<ScriptCommand, ScriptError> {
    if |words| != 3 then Err(WrongArguments)
    else
      match MouseButton(words[2])
      case Err(e) => Err(BadKey(e))
      case Ok(button) => Ok(Button(action, button))
  }

  function WheelCommand(words: seq<string>): Result<ScriptCommand, ScriptError> {
    if |words| != 3 then Err(WrongArguments)
    else
      match RangedInteger(words[2], -0x80, 0x7F)
      case Err(e) => Err(BadNumber(e))
      case Ok(delta) => Ok(Wheel(delta))
  }

  function MouseCommand(words: seq<string>): Result<ScriptCommand, ScriptError> {
    if |words| < 2 then Err(WrongArguments)
    else
      match UpperAll(words[1])
      case "MOVE" => MoveCommand(words)
      case "CLICK" => ButtonCommand(Click, words)
      case "DOWN" => ButtonCommand(Hold, words)
      case "UP" => ButtonCommand(LetGo, words)
      case "WHEEL" => WheelCommand(words)
      case _ => Err(UnknownAction)
  }

  function WaitCommand(words: seq<string>): Result<ScriptCommand, ScriptError> {
    if |words| != 2 then Err(WrongArguments)
    else
      match RangedInteger(words[1], 0, 0xFFFF_FFFF)
      case Err(e) => Err(BadNumber(e))
      case Ok(ms) => Ok(Wait(ms))
  }

  /** The command a line's words spell, script.hpp:115-165. */
  function CommandOf(words: seq<string>): Result<ScriptCommand, ScriptError>
    requires words != []
  {
    match UpperAll(words[0])
    case "TYPE" => if |words| != 2 then Err(WrongArguments) else Ok(TypeText(words[1]))
    case "TEXT" => if |words| != 2 then Err(WrongArguments) else Ok(TypeText(words[1]))
    case "KEY" => KeyCommand(words)
    case "MOUSE" => MouseCommand(words)
    case "WAIT" => WaitCommand(words)
    case "STOP" => if |words| != 1 then Err(WrongArguments) else Ok(Stop)
    case _ => Err(UnknownCommand)
  }

  function LineOf(line: string): Line {
    match WordsOf(line)
    case Err(e) => Err(BadWords(e))
    case Ok(words) =>
      if words == [] then Ok(None)
      else
        match CommandOf(words)
        case Err(e) => Err(e)
        case Ok(c) => Ok(Some(c))
  }

  /** The commands of the lines in order; the first bad line stops everything. */
  function LinesOf(lines: seq<string>): Commands {
    if lines == [] then Ok([]) else
      var before := LinesOf(lines[..|lines| - 1]);
      if before.Err? then before else
        match LineOf(lines[|lines| - 1])
        case Err(e) => Err(e)
        case Ok(None) => before
        case Ok(Some(c)) => Ok(before.value + [c])
  }

  function Parse(script: string): Commands {
    LinesOf(Split(script, '\n'))
  }

  /** parse_script_line, script.hpp:108-166. */
  method ParseScriptLine(line: string) returns (r: Line)
    ensures r == LineOf(line)
  {
    hide CommandOf;
    var words := SplitWords(line);
    if words.Err? {
      return Err(BadWords(words.error));
    }
    if words.value == [] {
      return Ok(None);
    }
    var command := CommandOf(words.value);
    r := if command.Ok? then Ok(Some(command.value)) else Err(command.error);
  }

  /** parse_script, script.hpp:169-186. */
  method ParseScript(script: string) returns (r: Commands)
    ensures r == Parse(script)
  {
    hide LineOf, Split;
    ghost var lines := Split(script, '\n');
    ghost var k := 0;
    var commands: seq<ScriptCommand> := [];
    var start := 0;
    assert script[0..] == script;
    while start <= |script|
      invariant 0 <= start <= |script| + 1 && k <= |lines|
      invariant lines[k..] == if start <= |script| then Split(script[start..], '\n') else []
      invariant LinesOf(lines[..k]) == Ok(commands)
    {
      var rest := script[start..];
      var end := Index(rest, '\n');
      NextPiece(lines, k, rest, '\n');
      assert lines[..k + 1][..k] == lines[..k];
      var line := ParseScriptLine(rest[..end]);
      if line.Err? {
        BadLineStands(lines, k + 1);
        return Err(line.error);
      }
      if line.value.Some? {
        commands := commands + [line.value.value];
      }
      k := k + 1;
      if end == |rest| {
        break;
      }
      assert rest[end + 1..] == script[start + end + 1..];
      start := start + end + 1;
    }
    assert lines[..k] == lines;
    r := Ok(commands);
  }

  lemma {:induction false} BadLineStands(lines: seq<string>, k: nat)
    requires k <= |lines| && LinesOf(lines[..k]).Err?
    ensures LinesOf(lines) == LinesOf(lines[..k])
  {
    if k == |lines| {
      assert lines[..k] == lines;
    } else {
      var init := lines[..|lines| - 1];
      assert init[..k] == lines[..k];
      BadLineStands(init, k);
    }
  }

  // ---------------------------------------------------------------------------
  // The printer

  predicate WellFormedCommand(c: ScriptCommand) {
    match c
    case PressKey(_, combo) => WellFormed(combo)
    case Button(_, button) => IsButton(button)
    case _ => true
  }

  function PrintKeyAction(a: KeyAction): string {
    match a
    case Tap => "TAP"
    case Press => "DOWN"
    case Release => "UP"
  }

  function PrintButtonAction(a: ButtonAction): string {
    match a
    case Click => "CLICK"
    case Hold => "DOWN"
    case LetGo => "UP"
  }

  /** The words of a command other than TYPE. */
  function PrintWords(c: ScriptCommand): (words: seq<string>)
    requires WellFormedCommand(c) && !c.TypeText?
    ensures words != []
  {
    match c
    case PressKey(action, combo) => ["KEY", PrintKeyAction(action), PrintCombo(combo)]
    case Move(dx, dy) => ["MOUSE", "MOVE", PrintInt(dx), PrintInt(dy)]
    case Button(action, button) => ["MOUSE", PrintButtonAction(action), PrintButton(button)]
    case Wheel(delta) => ["MOUSE", "WHEEL", PrintInt(delta)]
    case Wait(ms) => ["WAIT", PrintInt(ms)]
    case Stop => ["STOP"]
  }

  function PrintCommand(c: ScriptCommand): string
    requires WellFormedCommand(c)
  {
    if c.TypeText? then "TYPE" + ([' '] + Quote(c.text)) else Unsplit(PrintWords(c), ' ')
  }

  function PrintLines(cs: seq<ScriptCommand>): (lines: seq<string>)
    requires forall c :: c in cs ==> WellFormedCommand(c)
    ensures |lines| == |cs| && forall i :: 0 <= i < |cs| ==> lines[i] == PrintCommand(cs[i])
  {
    seq(|cs|, i requires 0 <= i < |cs| => PrintCommand(cs[i]))
  }

  function Print(cs: seq<ScriptCommand>): string
    requires forall c :: c in cs ==> WellFormedCommand(c)
  {
    if cs == [] then "" else Unsplit(PrintLines(cs), '\n')
  }

  // ---------------------------------------------------------------------------
  // Reading back what was printed

  lemma {:induction false} UpperOfPlain(s: string)
    requires Plain(s)
    ensures UpperAll(s) == s
  {
    PlainIsKept(s);
  }

  /** "text", in whatever case, is another name for "type"; both take one text as it is, and nothing else. */
  lemma TextIsType(words: seq<string>, head: string)
    requires words != [] && UpperAll(words[0]) == "TEXT" && UpperAll(head) == "TYPE"
    ensures CommandOf(words) == CommandOf(words[0 := head])
    ensures CommandOf(words) == if |words| == 2 then Ok(TypeText(words[1])) else Err(WrongArguments)
  {
    hide KeyCommand, MouseCommand, WaitCommand, UpperAll;
  }

  // ---------------------------------------------------------------------------
  // Exactly what spells a command

  function KeyWord(action: KeyAction): string {
    match action
    case Tap => "tap"
    case Press => "down"
    case Release => "up"
  }

  function ButtonWord(action: ButtonAction): string {
    match action
    case Click => "click"
    case Hold => "down"
    case LetGo => "up"
  }

  /** The words of a command: keywords in any case, and nothing missing or left over. */
  predicate Spells(words: seq<string>, c: ScriptCommand)
    requires words != []
  {
    match c
    case TypeText(text) =>
      |words| == 2 && (SameButForCase(words[0], "type") || SameButForCase(words[0], "text")) && words[1] == text
    case PressKey(action, combo) =>
      |words| == 3 && SameButForCase(words[0], "key") && SameButForCase(words[1], KeyWord(action))
      && Combo(words[2]) == Ok(combo)
    case Move(dx, dy) =>
      |words| == 4 && SameButForCase(words[0], "mouse") && SameButForCase(words[1], "move")
      && IntegerOf(words[2]) == Some(dx) && IntegerOf(words[3]) == Some(dy)
    case Button(action, button) =>
      |words| == 3 && SameButForCase(words[0], "mouse") && SameButForCase(words[1], ButtonWord(action))
      && MouseButton(words[2]) == Ok(button)
    case Wheel(delta) =>
      |words| == 3 && SameButForCase(words[0], "mouse") && SameButForCase(words[1], "wheel")
      && IntegerOf(words[2]) == Some(delta)
    case Wait(ms) =>
      |words| == 2 && SameButForCase(words[0], "wait") && IntegerOf(words[1]) == Some(ms)
    case Stop =>
      |words| == 1 && SameButForCase(words[0], "stop")
  }

  lemma HeadWords()
    ensures UpperAll("type") == "TYPE" && UpperAll("text") == "TEXT" && UpperAll("key") == "KEY"
    ensures UpperAll("mouse") == "MOUSE" && UpperAll("wait") == "WAIT" && UpperAll("stop") == "STOP"
  {
  }

  lemma ActionWords()
    ensures UpperAll("tap") == "TAP" && UpperAll("down") == "DOWN" && UpperAll("up") == "UP"
    ensures UpperAll("move") == "MOVE" && UpperAll("click") == "CLICK" && UpperAll("wheel") == "WHEEL"
  {
  }

  lemma HeadIsExact(word: string)
    ensures UpperAll(word) == "TYPE" <==> SameButForCase(word, "type")
    ensures UpperAll(word) == "TEXT" <==> SameButForCase(word, "text")
    ensures UpperAll(word) == "KEY" <==> SameButForCase(word, "key")
    ensures UpperAll(word) == "MOUSE" <==> SameButForCase(word, "mouse")
    ensures UpperAll(word) == "WAIT" <==> SameButForCase(word, "wait")
    ensures UpperAll(word) == "STOP" <==> SameButForCase(word, "stop")
  {
    hide UpperAll, SameButForCase;
    HeadWords();
    FoldedIsSame(word, "type");
    FoldedIsSame(word, "text");
    FoldedIsSame(word, "key");
    FoldedIsSame(word, "mouse");
    FoldedIsSame(word, "wait");
    FoldedIsSame(word, "stop");
  }

  lemma ActionIsExact(word: string)
    ensures UpperAll(word) == "TAP" <==> SameButForCase(word, "tap")
    ensures UpperAll(word) == "DOWN" <==> SameButForCase(word, "down")
    ensures UpperAll(word) == "UP" <==> SameButForCase(word, "up")
    ensures UpperAll(word) == "MOVE" <==> SameButForCase(word, "move")
    ensures UpperAll(word) == "CLICK" <==> SameButForCase(word, "click")
    ensures UpperAll(word) == "WHEEL" <==> SameButForCase(word, "wheel")
  {
    hide UpperAll, SameButForCase;
    ActionWords();
    FoldedIsSame(word, "tap");
    FoldedIsSame(word, "down");
    FoldedIsSame(word, "up");
    FoldedIsSame(word, "move");
    FoldedIsSame(word, "click");
    FoldedIsSame(word, "wheel");
  }

  lemma KeyIsExact(words: seq<string>, c: ScriptCommand)
    requires words != [] && UpperAll(words[0]) == "KEY"
    ensures KeyCommand(words) == Ok(c) <==> Spells(words, c)
  {
    hide UpperAll, SameButForCase, Combo, IntegerOf, MouseButton;
    HeadIsExact(words[0]);
    if |words| > 1 {
      ActionIsExact(words[1]);
    }
  }

  lemma MouseIsExact(words: seq<string>, c: ScriptCommand)
    requires words != [] && UpperAll(words[0]) == "MOUSE"
    ensures MouseCommand(words) == Ok(c) <==> Spells(words, c)
  {
    hide UpperAll, SameButForCase, Combo, IntegerOf, MouseButton;
    HeadIsExact(words[0]);
    if |words| > 1 {
      ActionIsExact(words[1]);
    }
  }

  lemma OtherIsExact(words: seq<string>, c: ScriptCommand)
    requires words != [] && UpperAll(words[0]) != "MOUSE" && UpperAll(words[0]) != "KEY"
    ensures CommandOf(words) == Ok(c) <==> Spells(words, c)
  {
    hide UpperAll, SameButForCase, Combo, IntegerOf, MouseButton, KeyCommand, MouseCommand;
    HeadIsExact(words[0]);
  }

  /** A line's words are a command exactly if they spell it. */
  lemma CommandsAreExact(words: seq<string>, c: ScriptCommand)
    requires words != []
    ensures CommandOf(words) == Ok(c) <==> Spells(words, c)
  {
    hide UpperAll, Spells, KeyCommand, MouseCommand, WaitCommand;
    if UpperAll(words[0]) == "KEY" {
      KeyIsExact(words, c);
    } else if UpperAll(words[0]) == "MOUSE" {
      MouseIsExact(words, c);
    } else {
      OtherIsExact(words, c);
    }
  }

  /** Apart from the text of TYPE, the case of words matters nowhere, in commands nor in errors. */
  lemma CaseOfWordsDoesNotMatter(words: seq<string>, others: seq<string>)
    requires words != [] && |words| == |others|
    requires forall i :: 0 <= i < |words| ==> SameButForCase(words[i], others[i])
    requires SameButForCase(words[0], "type") || SameButForCase(words[0], "text") ==> words[1..] == others[1..]
    ensures CommandOf(words) == CommandOf(others)
  {
    hide UpperAll, SameButForCase, Combo, IntegerOf, MouseButton;
    HeadIsExact(words[0]);
    forall i | 0 <= i < |words|
      ensures UpperAll(words[i]) == UpperAll(others[i]) && Combo(words[i]) == Combo(others[i])
      ensures MouseButton(words[i]) == MouseButton(others[i]) && IntegerOf(words[i]) == IntegerOf(others[i])
    {
      FoldedIsSame(words[i], others[i]);
      CaseDoesNotMatter(words[i], others[i]);
      SameFoldSameButton(words[i], others[i]);
      SameInteger(words[i], others[i]);
    }
    assert |words| == 2 ==> words[1] == words[1..][0] && others[1] == others[1..][0];
  }

  lemma SameFoldSameButton(a: string, b: string)
    requires UpperAll(a) == UpperAll(b)
    ensures MouseButton(a) == MouseButton(b)
  {
  }

  lemma KeyIsReadBack(action: KeyAction, combo: KeyCombo)
    requires WellFormed(combo)
    ensures CommandOf(["KEY", PrintKeyAction(action), PrintCombo(combo)]) == Ok(PressKey(action, combo))
  {
    hide Combo, PrintCombo, WellFormed;
    UpperOfPlain("KEY");
    UpperOfPlain(PrintKeyAction(action));
    ComboOfPrint(combo);
  }

  lemma MoveIsReadBack(dx: i16, dy: i16)
    ensures CommandOf(["MOUSE", "MOVE", PrintInt(dx), PrintInt(dy)]) == Ok(Move(dx, dy))
  {
    hide IntegerOf, PrintInt, Combo;
    UpperOfPlain("MOUSE");
    UpperOfPlain("MOVE");
    IntegerOfPrint(dx);
    IntegerOfPrint(dy);
  }

  lemma ButtonIsReadBack(action: ButtonAction, button: byte)
    requires IsButton(button)
    ensures CommandOf(["MOUSE", PrintButtonAction(action), PrintButton(button)]) == Ok(Button(action, button))
  {
    hide IntegerOf, MouseButton, PrintButton, Combo;
    UpperOfPlain("MOUSE");
    UpperOfPlain(PrintButtonAction(action));
    ButtonOfPrint(button);
  }

  lemma WheelIsReadBack(delta: i8)
    ensures CommandOf(["MOUSE", "WHEEL", PrintInt(delta)]) == Ok(Wheel(delta))
  {
    hide IntegerOf, PrintInt, MouseButton, Combo;
    UpperOfPlain("MOUSE");
    UpperOfPlain("WHEEL");
    IntegerOfPrint(delta);
  }

  lemma WaitIsReadBack(ms: u32)
    ensures CommandOf(["WAIT", PrintInt(ms)]) == Ok(Wait(ms))
  {
    hide IntegerOf, PrintInt, Combo;
    UpperOfPlain("WAIT");
    IntegerOfPrint(ms);
  }

  lemma OtherIsReadBack(c: ScriptCommand)
    requires WellFormedCommand(c) && !c.TypeText?
    ensures CommandOf(PrintWords(c)) == Ok(c)
  {
    hide CommandOf, PrintCombo, PrintInt, PrintButton;
    match c
    case PressKey(action, combo) => KeyIsReadBack(action, combo);
    case Move(dx, dy) => MoveIsReadBack(dx, dy);
    case Button(action, button) => ButtonIsReadBack(action, button);
    case Wheel(delta) => WheelIsReadBack(delta);
    case Wait(ms) => WaitIsReadBack(ms);
    case Stop => StopIsReadBack();
  }

  lemma StopIsReadBack()
    ensures CommandOf(["STOP"]) == Ok(Stop)
  {
    UpperOfPlain("STOP");
  }

  lemma PrintedAreWords(c: ScriptCommand)
    requires WellFormedCommand(c) && !c.TypeText?
    ensures forall w :: w in PrintWords(c) ==> IsWord(w)
  {
    hide PrintCombo, PrintInt, IntegerOf;
    match c
    case PressKey(action, combo) => ComboIsWord(combo);
    case Move(dx, dy) =>
      IntegerOfPrint(dx);
      IntegerOfPrint(dy);
    case Button(action, button) =>
    case Wheel(delta) => IntegerOfPrint(delta);
    case Wait(ms) => IntegerOfPrint(ms);
    case Stop =>
  }

  lemma {:induction false} WordsStayOnTheLine(words: seq<string>)
    requires words != [] && forall w :: w in words ==> IsWord(w)
    ensures '\n' !in Unsplit(words, ' ')
  {
    assert words[0] in words;
    if |words| > 1 {
      WordsStayOnTheLine(words[1..]);
    }
  }

  lemma TypeIsReadBack(text: string)
    ensures LineOf("TYPE" + ([' '] + Quote(text))) == Ok(Some(TypeText(text)))
  {
    hide WordsOf, Quote;
    WordThenQuote("TYPE", text);
    UpperOfPlain("TYPE");
  }

  /** One printed command is one line, which is read back as that command. */
  lemma CommandIsReadBack(c: ScriptCommand)
    requires WellFormedCommand(c)
    ensures LineOf(PrintCommand(c)) == Ok(Some(c)) && '\n' !in PrintCommand(c)
  {
    hide CommandOf, PrintWords, WordsOf;
    if c.TypeText? {
      TypeIsReadBack(c.text);
      EscapedStaysOnTheLine(c.text);
    } else {
      PrintedAreWords(c);
      WordsOfUnsplit(PrintWords(c), ' ');
      WordsStayOnTheLine(PrintWords(c));
      OtherIsReadBack(c);
    }
  }

  lemma {:induction false} LinesAreReadBack(cs: seq<ScriptCommand>)
    requires forall c :: c in cs ==> WellFormedCommand(c)
    ensures LinesOf(PrintLines(cs)) == Ok(cs)
  {
    hide LineOf, PrintCommand, WellFormedCommand;
    if cs != [] {
      var init, last := cs[..|cs| - 1], cs[|cs| - 1];
      LinesAreReadBack(init);
      CommandIsReadBack(last);
      assert PrintLines(cs)[..|cs| - 1] == PrintLines(init);
      assert init + [last] == cs;
    }
  }

  /** Every list of well-formed commands is what its printed script parses to. */
  lemma ParseOfPrint(cs: seq<ScriptCommand>)
    requires forall c :: c in cs ==> WellFormedCommand(c)
    ensures Parse(Print(cs)) == Ok(cs)
  {
    hide LineOf, PrintCommand, WellFormedCommand;
    if cs == [] {
      NothingIsSaid("");
    } else {
      forall line | line in PrintLines(cs) ensures '\n' !in line {
        var i :| 0 <= i < |cs| && line == PrintCommand(cs[i]);
        CommandIsReadBack(cs[i]);
      }
      SplitOfUnsplit(PrintLines(cs), '\n');
      LinesAreReadBack(cs);
    }
  }

  // ---------------------------------------------------------------------------
  // Blank lines and comments

  function Then(a: Commands, b: Commands): Commands {
    if a.Err? then a else if b.Err? then b else Ok(a.value + b.value)
  }

  lemma {:induction false} LinesAppend(a: seq<string>, b: seq<string>)
    ensures LinesOf(a + b) == Then(LinesOf(a), LinesOf(b))
  {
    hide LineOf;
    if b == [] {
      assert a + b == a;
      assert LinesOf(a).Ok? ==> LinesOf(a).value + [] == LinesOf(a).value;
    } else {
      var init, last := b[..|b| - 1], b[|b| - 1];
      assert (a + b)[..|a + b| - 1] == a + init;
      LinesAppend(a, init);
      var x, y, line := LinesOf(a), LinesOf(init), LineOf(last);
      if x.Ok? && y.Ok? && line.Ok? && line.value.Some? {
        assert x.value + (y.value + [line.value.value]) == x.value + y.value + [line.value.value];
      }
    }
  }

  lemma NothingIsSaid(line: string)
    requires IsBlankOrComment(line) && '\n' !in line
    ensures Parse(line) == Ok([])
  {
    NoWordsInBlank(line);
    assert line + "" == line;
    IndexOfFirst(line, "", '\n');
    assert [line][..0] == [];
  }

  /** A blank or comment line put anywhere between lines changes nothing, errors included. */
  lemma BlankLineChangesNothing(before: string, blank: string, after: string)
    requires IsBlankOrComment(blank) && '\n' !in blank
    ensures Parse(before + (['\n'] + (blank + (['\n'] + after)))) == Parse(before + (['\n'] + after))
  {
    hide LinesOf, Split, IsBlankOrComment;
    var rest := blank + (['\n'] + after);
    SplitOfLines(before, rest, '\n');
    SplitOfLines(blank, after, '\n');
    SplitOfLines(before, after, '\n');
    LinesAppend(Split(before, '\n'), Split(rest, '\n'));
    LinesAppend(Split(blank, '\n'), Split(after, '\n'));
    LinesAppend(Split(before, '\n'), Split(after, '\n'));
    NothingIsSaid(blank);
    assert Parse(after).Ok? ==> [] + Parse(after).value == Parse(after).value;
  }

  /** Nor does one put before the first line or after the last. */
  lemma BlankLineAtEitherEnd(blank: string, script: string)
    requires IsBlankOrComment(blank) && '\n' !in blank
    ensures Parse(blank + (['\n'] + script)) == Parse(script)
    ensures Parse(script + (['\n'] + blank)) == Parse(script)
  {
    hide LinesOf, Split, IsBlankOrComment;
    NothingIsSaid(blank);
    SplitOfLines(blank, script, '\n');
    LinesAppend(Split(blank, '\n'), Split(script, '\n'));
    SplitOfLines(script, blank, '\n');
    LinesAppend(Split(script, '\n'), Split(blank, '\n'));
    assert Parse(script).Ok? ==>
      [] + Parse(script).value == Parse(script).value && Parse(script).value + [] == Parse(script).value;
  }

  // ---------------------------------------------------------------------------
  // What scripts can say

  lemma CommandOfIsWellFormed(words: seq<string>)
    requires words != [] && CommandOf(words).Ok?
    ensures WellFormedCommand(CommandOf(words).value)
  {
    hide Combo, MouseButton, RangedInteger, WellFormed, IsButton;
    var c := CommandOf(words).value;
    match c
    case PressKey(_, combo) => ComboIsWellFormed(words[2], combo);
    case Button(_, button) => ButtonIsButton(words[2]);
    case _ =>
  }

  lemma ButtonIsButton(name: string)
    requires MouseButton(name).Ok?
    ensures IsButton(MouseButton(name).value)
  {
  }

  lemma {:induction false} LinesAreWellFormed(lines: seq<string>)
    requires LinesOf(lines).Ok?
    ensures forall c :: c in LinesOf(lines).value ==> WellFormedCommand(c)
  {
    hide CommandOf, WellFormedCommand;
    if lines != [] {
      var init, last := lines[..|lines| - 1], lines[|lines| - 1];
      LinesAreWellFormed(init);
      var line := LineOf(last);
      if line.Ok? && line.value.Some? {
        CommandOfIsWellFormed(WordsOf(last).value);
      }
    }
  }

  /** Scripts say exactly the lists of well-formed commands. */
  lemma ScriptsSayTheWellFormed(cs: seq<ScriptCommand>)
    ensures (forall c :: c in cs ==> WellFormedCommand(c)) <==> exists script :: Parse(script) == Ok(cs)
  {
    hide LinesOf, WellFormedCommand, Print;
    if forall c :: c in cs ==> WellFormedCommand(c) {
      ParseOfPrint(cs);
    }
    forall script | Parse(script) == Ok(cs) ensures forall c :: c in cs ==> WellFormedCommand(c) {
      LinesAreWellFormed(Split(script, '\n'));
    }
  }
}
