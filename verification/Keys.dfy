/** Key combinations and mouse buttons, keys.hpp. Key codes are those of the HID keyboard page 0x07. */
module Keys {
  import opened Words
  import opened Text

  datatype KeyCombo = KeyCombo(modifier: byte, keycode: byte)
  datatype KeyError = EmptyToken | TwoKeys | UnknownKey | NoKey | UnknownButton

  type ModifierBit = b: int | b == 1 || b == 2 || b == 4 || b == 8 witness 1

  const CTRL: ModifierBit := 0x01
  const SHIFT: ModifierBit := 0x02
  const ALT: ModifierBit := 0x04
  const GUI: ModifierBit := 0x08

  /** What one token between plus signs stands for. */
  datatype Token = Blank | Modifier(bit: ModifierBit) | Key(code: byte) | Unknown

  predicate IsKeyCode(code: int) {
    0x04 <= code <= 0x52 && code != 0x32
  }

  function NamedKey(name: string): (t: Token)
    ensures t.Unknown? || (t.Key? && IsKeyCode(t.code))
  {
    match |name|
    case 1 => (
      match name[0]
      case '0' => Key(0x27)
      case '-' => Key(0x2D)
      case '=' => Key(0x2E)
      case '[' => Key(0x2F)
      case ']' => Key(0x30)
      case '\\' => Key(0x31)
      case ';' => Key(0x33)
      case '\'' => Key(0x34)
      case '`' => Key(0x35)
      case ',' => Key(0x36)
      case '.' => Key(0x37)
      case '/' => Key(0x38)
      case _ => Unknown
    )
    case 2 => (
      if name[0] == 'F' && '1' <= name[1] <= '9' then Key(0x3A + (name[1] - '1') as int)
      else if name == "UP" then Key(0x52)
      else Unknown
    )
    case 3 => (
      match name
      case "ESC" => Key(0x29)
      case "TAB" => Key(0x2B)
      case "DOT" => Key(0x37)
      case "F10" => Key(0x43)
      case "F11" => Key(0x44)
      case "F12" => Key(0x45)
      case "DEL" => Key(0x4C)
      case "END" => Key(0x4D)
      case _ => Unknown
    )
    case 4 => (
      match name
      case "BKSP" => Key(0x2A)
      case "HOME" => Key(0x4A)
      case "PGUP" => Key(0x4B)
      case "PGDN" => Key(0x4E)
      case "LEFT" => Key(0x50)
      case "DOWN" => Key(0x51)
      case _ => Unknown
    )
    case 5 => (
      match name
      case "ENTER" => Key(0x28)
      case "SPACE" => Key(0x2C)
      case "MINUS" => Key(0x2D)
      case "EQUAL" => Key(0x2E)
      case "QUOTE" => Key(0x34)
      case "GRAVE" => Key(0x35)
      case "COMMA" => Key(0x36)
      case "SLASH" => Key(0x38)
      case "PAUSE" => Key(0x48)
      case "RIGHT" => Key(0x4F)
      case _ => Unknown
    )
    case 6 => (
      match name
      case "RETURN" => Key(0x28)
      case "ESCAPE" => Key(0x29)
      case "PERIOD" => Key(0x37)
      case "PRTSCR" => Key(0x46)
      case "INSERT" => Key(0x49)
      case "PAGEUP" => Key(0x4B)
      case "DELETE" => Key(0x4C)
      case _ => Unknown
    )
    case 8 => (
      match name
      case "LBRACKET" => Key(0x2F)
      case "RBRACKET" => Key(0x30)
      case "CAPSLOCK" => Key(0x39)
      case "PAGEDOWN" => Key(0x4E)
      case _ => Unknown
    )
    case 9 => (
      match name
      case "BACKSPACE" => Key(0x2A)
      case "BACKSLASH" => Key(0x31)
      case "SEMICOLON" => Key(0x33)
      case _ => Unknown
    )
    case 10 => if name == "SCROLLLOCK" then Key(0x47) else Unknown
    case 11 => if name == "PRINTSCREEN" then Key(0x46) else Unknown
    case _ => Unknown
  }

  function Classify(name: string): (t: Token)
    ensures t.Key? ==> IsKeyCode(t.code)
  {
    if name == "" then Blank
    else if name == "CTRL" || name == "CONTROL" then Modifier(CTRL)
    else if name == "SHIFT" then Modifier(SHIFT)
    else if name == "ALT" then Modifier(ALT)
    else if name == "GUI" || name == "WIN" || name == "META" then Modifier(GUI)
    else if |name| == 1 && 'A' <= name[0] <= 'Z' then Key(0x04 + (name[0] - 'A') as int)
    else if |name| == 1 && '1' <= name[0] <= '9' then Key(0x1E + (name[0] - '1') as int)
    else NamedKey(name)
  }

  // ---------------------------------------------------------------------------
  // Combinations

  function Strip(s: string): string {
    if s == "" then "" else (if IsSpace(s[0]) then "" else [s[0]]) + Strip(s[1..])
  }

  function TokenOf(piece: string): Token {
    Classify(Strip(UpperAll(piece)))
  }

  function TokensOf(pieces: seq<string>): (ts: seq<Token>)
    ensures |ts| == |pieces| && forall i :: 0 <= i < |ts| ==> ts[i] == TokenOf(pieces[i])
  {
    seq(|pieces|, i requires 0 <= i < |pieces| => TokenOf(pieces[i]))
  }

  /** modifier | bit */
  function WithBit(modifier: byte, bit: ModifierBit): byte {
    if bit == CTRL then modifier / 2 * 2 + 1
    else if bit == SHIFT then modifier / 4 * 4 + 2 + modifier % 2
    else if bit == ALT then modifier / 8 * 8 + 4 + modifier % 4
    else modifier / 16 * 16 + 8 + modifier % 8
  }

  datatype Progress = Progress(modifier: byte, keycode: byte, hasKey: bool)

  const NOTHING := Progress(0, 0, false)

  function Apply(p: Progress, t: Token): Result<Progress, KeyError> {
    match t
    case Blank => Err(EmptyToken)
    case Modifier(bit) => Ok(p.(modifier := WithBit(p.modifier, bit)))
    case Key(code) => if p.hasKey then Err(TwoKeys) else Ok(p.(keycode := code, hasKey := true))
    case Unknown => Err(if p.hasKey then TwoKeys else UnknownKey)
  }

  /** The tokens taken one after another; the first error stands. */
  function Fold(tokens: seq<Token>): Result<Progress, KeyError> {
    if tokens == [] then Ok(NOTHING) else
      var before := Fold(tokens[..|tokens| - 1]);
      if before.Err? then before else Apply(before.value, tokens[|tokens| - 1])
  }

  function Finish(r: Result<Progress, KeyError>): Result<KeyCombo, KeyError> {
    match r
    case Err(e) => Err(e)
    case Ok(p) => if !p.hasKey && p.modifier == 0 then Err(NoKey) else Ok(KeyCombo(p.modifier, p.keycode))
  }

  function Combo(input: string): Result<KeyCombo, KeyError> {
    Finish(Fold(TokensOf(Split(input, '+'))))
  }

  /** parse_combo, keys.hpp:26-92. */
  method ParseCombo(input: string) returns (r: Result<KeyCombo, KeyError>)
    ensures r == Combo(input)
  {
    hide TokenOf, Apply, Split, Fold, IsKeyCode;
    ghost var pieces := Split(input, '+');
    ghost var tokens := TokensOf(pieces);
    ghost var k := 0;
    var progress := NOTHING;
    var start := 0;
    assert input[0..] == input && tokens[..0] == [];
    NothingFolded();
    while start <= |input|
      invariant 0 <= start <= |input| + 1 && k <= |tokens|
      invariant pieces[k..] == if start <= |input| then Split(input[start..], '+') else []
      invariant Fold(tokens[..k]) == Ok(progress)
    {
      var rest := input[start..];
      var end := Index(rest, '+');
      NextPiece(pieces, k, rest, '+');
      var applied := Apply(progress, TokenOf(rest[..end]));
      FoldNext(tokens, k, progress);
      if applied.Err? {
        ErrorStands(tokens, k + 1);
        return Err(applied.error);
      }
      progress := applied.value;
      k := k + 1;
      if end == |rest| {
        break;
      }
      assert rest[end + 1..] == input[start + end + 1..];
      start := start + end + 1;
    }
    assert tokens[..k] == tokens;
    if !progress.hasKey && progress.modifier == 0 {
      return Err(NoKey);
    }
    r := Ok(KeyCombo(progress.modifier, progress.keycode));
  }

  lemma FoldNext(tokens: seq<Token>, k: nat, p: Progress)
    requires k < |tokens| && Fold(tokens[..k]) == Ok(p)
    ensures Fold(tokens[..k + 1]) == Apply(p, tokens[k])
  {
    hide Apply;
    assert tokens[..k + 1][..k] == tokens[..k];
  }

  lemma NothingFolded()
    ensures Fold([]) == Ok(NOTHING)
  {
  }

  lemma {:induction false} ErrorStands(tokens: seq<Token>, k: nat)
    requires k <= |tokens| && Fold(tokens[..k]).Err?
    ensures Fold(tokens) == Fold(tokens[..k])
  {
    if k == |tokens| {
      assert tokens[..k] == tokens;
    } else {
      var init := tokens[..|tokens| - 1];
      assert init[..k] == tokens[..k];
      ErrorStands(init, k);
    }
  }

  // ---------------------------------------------------------------------------
  // What a combination means

  function One(b: bool): nat {
    if b then 1 else 0
  }

  /** The modifiers named, however often and in whatever order. */
  function MaskOf(tokens: seq<Token>): byte {
    One(Modifier(CTRL) in tokens) + 2 * One(Modifier(SHIFT) in tokens)
    + 4 * One(Modifier(ALT) in tokens) + 8 * One(Modifier(GUI) in tokens)
  }

  function KeysIn(tokens: seq<Token>): seq<byte> {
    if tokens == [] then [] else
      KeysIn(tokens[..|tokens| - 1])
      + (if tokens[|tokens| - 1].Key? then [tokens[|tokens| - 1].code] else [])
  }

  predicate AllKnown(tokens: seq<Token>) {
    forall t :: t in tokens ==> t.Modifier? || t.Key?
  }

  function Sum(tokens: seq<Token>): Progress
    requires |KeysIn(tokens)| <= 1
  {
    var keys := KeysIn(tokens);
    Progress(MaskOf(tokens), if keys == [] then 0 else keys[0], keys != [])
  }

  lemma BitsWithBit(ctrl: bool, shift: bool, alt: bool, gui: bool, bit: ModifierBit)
    ensures WithBit(One(ctrl) + 2 * One(shift) + 4 * One(alt) + 8 * One(gui), bit) ==
      One(ctrl || bit == CTRL) + 2 * One(shift || bit == SHIFT)
      + 4 * One(alt || bit == ALT) + 8 * One(gui || bit == GUI)
  {
  }

  lemma MaskWithBit(tokens: seq<Token>, bit: ModifierBit)
    ensures MaskOf(tokens + [Modifier(bit)]) == WithBit(MaskOf(tokens), bit)
  {
    hide One, WithBit;
    BitsWithBit(Modifier(CTRL) in tokens, Modifier(SHIFT) in tokens, Modifier(ALT) in tokens,
                Modifier(GUI) in tokens, bit);
    var more := tokens + [Modifier(bit)];
    assert forall b: ModifierBit :: Modifier(b) in more <==> b == bit || Modifier(b) in tokens;
  }

  lemma MaskWithKey(tokens: seq<Token>, t: Token)
    requires !t.Modifier?
    ensures MaskOf(tokens + [t]) == MaskOf(tokens)
  {
    assert forall b: ModifierBit :: Modifier(b) in tokens + [t] <==> Modifier(b) in tokens;
  }

  lemma {:induction false} FoldMeans(tokens: seq<Token>)
    ensures Fold(tokens).Ok? <==> AllKnown(tokens) && |KeysIn(tokens)| <= 1
    ensures Fold(tokens).Ok? ==> Fold(tokens).value == Sum(tokens)
  {
    hide MaskOf, WithBit;
    if tokens == [] {
      assert MaskOf(tokens) == 0 by { MaskOfNone(); }
    } else {
      var init, t := tokens[..|tokens| - 1], tokens[|tokens| - 1];
      FoldMeans(init);
      assert tokens == init + [t];
      if t.Modifier? {
        MaskWithBit(init, t.bit);
      } else {
        MaskWithKey(init, t);
      }
    }
  }

  lemma MaskOfNone()
    ensures MaskOf([]) == 0
  {
  }

  /**
    A combination is accepted exactly when every token is known and at most one is a key; it then
    is the set of its modifiers with that key, whatever the order, case, blanks and repetitions.
  */
  lemma ComboMeans(input: string, c: KeyCombo)
    ensures
      var tokens := TokensOf(Split(input, '+'));
      Combo(input) == Ok(c) <==>
        && AllKnown(tokens) && |KeysIn(tokens)| <= 1
        && c == KeyCombo(MaskOf(tokens), if KeysIn(tokens) == [] then 0 else KeysIn(tokens)[0])
  {
    hide Classify, NamedKey, TokenOf;
    var tokens := TokensOf(Split(input, '+'));
    FoldMeans(tokens);
    if AllKnown(tokens) && KeysIn(tokens) == [] {
      SomethingNamed(tokens);
    }
  }

  lemma SomethingNamed(tokens: seq<Token>)
    requires tokens != [] && AllKnown(tokens) && KeysIn(tokens) == []
    ensures MaskOf(tokens) != 0
  {
    var t := tokens[|tokens| - 1];
    assert t in tokens && t.Modifier?;
  }

  /** "combo has no key" is never the answer: an empty combination already fails as an empty token. */
  lemma NoKeyIsUnreachable(input: string)
    ensures Combo(input) != Err(NoKey)
  {
    hide Classify, NamedKey, TokenOf;
    var tokens := TokensOf(Split(input, '+'));
    FoldMeans(tokens);
    if Fold(tokens).Ok? && KeysIn(tokens) == [] {
      SomethingNamed(tokens);
    }
    NoErrorIsNoKey(tokens);
  }

  lemma {:induction false} NoErrorIsNoKey(tokens: seq<Token>)
    ensures Fold(tokens) != Err(NoKey)
  {
    if tokens != [] {
      NoErrorIsNoKey(tokens[..|tokens| - 1]);
    }
  }

  // ---------------------------------------------------------------------------
  // Writing a combination down, and reading it back

  predicate WellFormed(c: KeyCombo) {
    && c.modifier < 16
    && (c.keycode == 0 || IsKeyCode(c.keycode))
    && (c.modifier != 0 || c.keycode != 0)
  }

  function Named(code: byte): string
    requires 0x27 <= code <= 0x52 && code != 0x32
  {
    match code
    case 0x27 => "0"
    case 0x28 => "ENTER"
    case 0x29 => "ESC"
    case 0x2A => "BACKSPACE"
    case 0x2B => "TAB"
    case 0x2C => "SPACE"
    case 0x2D => "MINUS"
    case 0x2E => "EQUAL"
    case 0x2F => "LBRACKET"
    case 0x30 => "RBRACKET"
    case 0x31 => "BACKSLASH"
    case 0x33 => "SEMICOLON"
    case 0x34 => "QUOTE"
    case 0x35 => "GRAVE"
    case 0x36 => "COMMA"
    case 0x37 => "DOT"
    case 0x38 => "SLASH"
    case 0x39 => "CAPSLOCK"
    case 0x43 => "F10"
    case 0x44 => "F11"
    case 0x45 => "F12"
    case 0x46 => "PRINTSCREEN"
    case 0x47 => "SCROLLLOCK"
    case 0x48 => "PAUSE"
    case 0x49 => "INSERT"
    case 0x4A => "HOME"
    case 0x4B => "PAGEUP"
    case 0x4C => "DELETE"
    case 0x4D => "END"
    case 0x4E => "PAGEDOWN"
    case 0x4F => "RIGHT"
    case 0x50 => "LEFT"
    case 0x51 => "DOWN"
    case 0x52 => "UP"
    case _ => ['F', '1' + (code - 0x3A) as char]
  }

  function KeyName(code: byte): string
    requires IsKeyCode(code)
  {
    if code <= 0x1D then ['A' + (code - 0x04) as char]
    else if code <= 0x26 then ['1' + (code - 0x1E) as char]
    else Named(code)
  }

  function ModifierName(bit: ModifierBit): string {
    if bit == CTRL then "CTRL" else if bit == SHIFT then "SHIFT" else if bit == ALT then "ALT" else "GUI"
  }

  predicate HasBit(modifier: byte, bit: ModifierBit) {
    if bit == CTRL then modifier % 2 == 1
    else if bit == SHIFT then modifier / 2 % 2 == 1
    else if bit == ALT then modifier / 4 % 2 == 1
    else modifier / 8 % 2 == 1
  }

  function NameIf(modifier: byte, bit: ModifierBit): seq<string> {
    if HasBit(modifier, bit) then [ModifierName(bit)] else []
  }

  function Modifiers(modifier: byte): seq<string> {
    NameIf(modifier, CTRL) + NameIf(modifier, SHIFT) + NameIf(modifier, ALT) + NameIf(modifier, GUI)
  }

  function Pieces(c: KeyCombo): seq<string>
    requires WellFormed(c)
  {
    Modifiers(c.modifier) + (if c.keycode != 0 then [KeyName(c.keycode)] else [])
  }

  function PrintCombo(c: KeyCombo): string
    requires WellFormed(c)
  {
    PiecesNotEmpty(c);
    Unsplit(Pieces(c), '+')
  }

  lemma PiecesNotEmpty(c: KeyCombo)
    requires WellFormed(c)
    ensures Pieces(c) != []
  {
  }

  /** Upper-case letters, digits and a few signs: what upper_ascii and the blank stripping leave alone. */
  predicate Plain(s: string) {
    forall c :: c in s ==> Upper(c) == c && !IsSpace(c) && c != '+' && c != '\n' && c != '"' && c != '#'
  }

  lemma {:induction false} PlainIsKept(s: string)
    requires Plain(s)
    ensures UpperAll(s) == s && Strip(s) == s
  {
    if s != "" {
      assert Plain(s[1..]);
      PlainIsKept(s[1..]);
      assert s == [s[0]] + s[1..];
    }
  }

  lemma NamedIsPlainFirst(code: byte)
    requires 0x27 <= code <= 0x2C
    ensures Plain(Named(code)) && Named(code) != ""
  {
  }

  lemma NamedIsPlainLow(code: byte)
    requires 0x2D <= code <= 0x31
    ensures Plain(Named(code)) && Named(code) != ""
  {
  }

  lemma NamedIsReadLow(code: byte)
    requires 0x27 <= code <= 0x31
    ensures Classify(Named(code)) == Key(code)
  {
  }

  lemma NamedIsPlainMid(code: byte)
    requires 0x33 <= code <= 0x39
    ensures Plain(Named(code)) && Named(code) != ""
  {
  }

  lemma NamedIsReadMid(code: byte)
    requires 0x33 <= code <= 0x39
    ensures Classify(Named(code)) == Key(code)
  {
  }

  lemma NamedIsPlainFunction(code: byte)
    requires 0x3A <= code <= 0x42
    ensures Plain(Named(code)) && Named(code) != ""
  {
  }

  lemma NamedIsReadFunction(code: byte)
    requires 0x3A <= code <= 0x42
    ensures Classify(Named(code)) == Key(code)
  {
  }

  lemma NamedIsPlainUpper(code: byte)
    requires 0x43 <= code <= 0x46
    ensures Plain(Named(code)) && Named(code) != ""
  {
  }

  lemma NamedIsPlainHigh(code: byte)
    requires 0x47 <= code <= 0x4A
    ensures Plain(Named(code)) && Named(code) != ""
  {
  }

  lemma NamedIsReadHigh(code: byte)
    requires 0x43 <= code <= 0x4A
    ensures Classify(Named(code)) == Key(code)
  {
  }

  lemma NamedIsPlainTop(code: byte)
    requires 0x4B <= code <= 0x52
    ensures Plain(Named(code)) && Named(code) != ""
  {
  }

  lemma NamedIsReadTop(code: byte)
    requires 0x4B <= code <= 0x4E
    ensures Classify(Named(code)) == Key(code)
  {
  }

  lemma NamedIsReadArrows(code: byte)
    requires 0x4F <= code <= 0x52
    ensures Classify(Named(code)) == Key(code)
  {
  }

  lemma NamedIsRead(code: byte)
    requires 0x27 <= code <= 0x52 && code != 0x32
    ensures Plain(Named(code)) && Named(code) != "" && Classify(Named(code)) == Key(code)
  {
    hide Named, Classify, Plain;
    if code <= 0x31 {
      if code <= 0x2C { NamedIsPlainFirst(code); } else { NamedIsPlainLow(code); }
      NamedIsReadLow(code);
    } else if code <= 0x39 {
      NamedIsPlainMid(code);
      NamedIsReadMid(code);
    } else if code <= 0x42 {
      NamedIsPlainFunction(code);
      NamedIsReadFunction(code);
    } else if code <= 0x4A {
      if code <= 0x46 { NamedIsPlainUpper(code); } else { NamedIsPlainHigh(code); }
      NamedIsReadHigh(code);
    } else {
      NamedIsPlainTop(code);
      if code <= 0x4E { NamedIsReadTop(code); } else { NamedIsReadArrows(code); }
    }
  }

  lemma KeyIsRead(code: byte)
    requires IsKeyCode(code)
    ensures Plain(KeyName(code)) && TokenOf(KeyName(code)) == Key(code)
  {
    hide Named, NamedKey;
    if 0x27 <= code {
      NamedIsRead(code);
    }
    PlainIsKept(KeyName(code));
  }

  lemma ModifierIsRead(bit: ModifierBit)
    ensures Plain(ModifierName(bit)) && TokenOf(ModifierName(bit)) == Modifier(bit)
  {
    hide NamedKey;
    PlainIsKept(ModifierName(bit));
  }

  lemma TokensAppend(a: seq<string>, b: seq<string>)
    ensures TokensOf(a + b) == TokensOf(a) + TokensOf(b)
  {
  }

  function ModifierIf(modifier: byte, bit: ModifierBit): seq<Token> {
    if HasBit(modifier, bit) then [Modifier(bit)] else []
  }

  lemma NameIsRead(modifier: byte, bit: ModifierBit)
    ensures TokensOf(NameIf(modifier, bit)) == ModifierIf(modifier, bit)
    ensures forall p :: p in NameIf(modifier, bit) ==> Plain(p)
  {
    hide TokenOf, Plain, ModifierName;
    ModifierIsRead(bit);
  }

  lemma ModifiersAreRead(modifier: byte)
    ensures TokensOf(Modifiers(modifier)) ==
      ModifierIf(modifier, CTRL) + ModifierIf(modifier, SHIFT) + ModifierIf(modifier, ALT) + ModifierIf(modifier, GUI)
    ensures forall p :: p in Modifiers(modifier) ==> Plain(p)
  {
    hide TokensOf, NameIf, ModifierIf, Plain;
    NameIsRead(modifier, CTRL);
    NameIsRead(modifier, SHIFT);
    NameIsRead(modifier, ALT);
    NameIsRead(modifier, GUI);
    var two := NameIf(modifier, CTRL) + NameIf(modifier, SHIFT);
    TokensAppend(NameIf(modifier, CTRL), NameIf(modifier, SHIFT));
    TokensAppend(two, NameIf(modifier, ALT));
    TokensAppend(two + NameIf(modifier, ALT), NameIf(modifier, GUI));
  }

  lemma MaskOfBits(modifier: byte)
    requires modifier < 16
    ensures modifier == One(HasBit(modifier, CTRL)) + 2 * One(HasBit(modifier, SHIFT))
                        + 4 * One(HasBit(modifier, ALT)) + 8 * One(HasBit(modifier, GUI))
  {
  }

  lemma BitIsRead(modifier: byte, more: seq<Token>, bit: ModifierBit)
    requires forall t :: t in more ==> !t.Modifier?
    ensures Modifier(bit) in TokensOf(Modifiers(modifier)) + more <==> HasBit(modifier, bit)
  {
    hide TokensOf, Modifiers, HasBit;
    ModifiersAreRead(modifier);
  }

  lemma MaskIsRead(modifier: byte, more: seq<Token>)
    requires modifier < 16 && forall t :: t in more ==> !t.Modifier?
    ensures MaskOf(TokensOf(Modifiers(modifier)) + more) == modifier
  {
    hide TokensOf, Modifiers, HasBit, One;
    BitIsRead(modifier, more, CTRL);
    BitIsRead(modifier, more, SHIFT);
    BitIsRead(modifier, more, ALT);
    BitIsRead(modifier, more, GUI);
    MaskOfBits(modifier);
  }

  lemma {:induction false} ModifiersAreNoKeys(tokens: seq<Token>)
    requires forall t :: t in tokens ==> t.Modifier?
    ensures KeysIn(tokens) == []
  {
    if tokens != [] {
      assert tokens[|tokens| - 1] in tokens;
      ModifiersAreNoKeys(tokens[..|tokens| - 1]);
    }
  }

  lemma KeysAreRead(mods: seq<Token>, code: byte)
    requires forall t :: t in mods ==> t.Modifier?
    ensures KeysIn(mods + [Key(code)]) == [code] && KeysIn(mods + []) == []
  {
    ModifiersAreNoKeys(mods);
    assert (mods + [Key(code)])[..|mods|] == mods;
    assert mods + [] == mods;
  }

  function KeyTokens(keycode: byte): seq<Token> {
    if keycode != 0 then [Key(keycode)] else []
  }

  lemma PiecesAreRead(c: KeyCombo)
    requires WellFormed(c)
    ensures TokensOf(Pieces(c)) == TokensOf(Modifiers(c.modifier)) + KeyTokens(c.keycode)
    ensures Split(PrintCombo(c), '+') == Pieces(c)
  {
    hide TokensOf, Plain, KeyName, Modifiers, TokenOf;
    var key := if c.keycode != 0 then [KeyName(c.keycode)] else [];
    if c.keycode != 0 {
      KeyIsRead(c.keycode);
    }
    TokensOfOne(key);
    TokensAppend(Modifiers(c.modifier), key);
    ModifiersAreRead(c.modifier);
    PlainPieces(Pieces(c));
    SplitOfUnsplit(Pieces(c), '+');
  }

  /** Every combination of the key table survives being written down. */
  lemma ComboOfPrint(c: KeyCombo)
    requires WellFormed(c)
    ensures Combo(PrintCombo(c)) == Ok(c)
  {
    hide TokensOf, PrintCombo, Pieces, Modifiers, ModifierIf, MaskOf, KeysIn;
    PiecesAreRead(c);
    ModifiersAreRead(c.modifier);
    ModifierTokens(c.modifier);
    MaskIsRead(c.modifier, KeyTokens(c.keycode));
    KeysAreRead(TokensOf(Modifiers(c.modifier)), c.keycode);
    ComboMeans(PrintCombo(c), c);
  }

  lemma ModifierTokens(modifier: byte)
    ensures forall t :: t in TokensOf(Modifiers(modifier)) ==> t.Modifier?
  {
    hide TokensOf, Modifiers, HasBit;
    ModifiersAreRead(modifier);
  }

  lemma PlainPieces(pieces: seq<string>)
    requires forall p :: p in pieces ==> Plain(p)
    ensures forall p :: p in pieces ==> '+' !in p
  {
  }

  lemma TokensOfOne(pieces: seq<string>)
    requires |pieces| <= 1
    ensures TokensOf(pieces) == if pieces == [] then [] else [TokenOf(pieces[0])]
  {
  }

  lemma {:induction false} KeysAreCodes(tokens: seq<Token>)
    requires forall t :: t in tokens && t.Key? ==> IsKeyCode(t.code)
    ensures forall k :: k in KeysIn(tokens) ==> IsKeyCode(k)
  {
    if tokens != [] {
      assert tokens[|tokens| - 1] in tokens;
      KeysAreCodes(tokens[..|tokens| - 1]);
    }
  }

  /** The combinations that can be written are exactly those of the key table. */
  lemma CombosAreTheWellFormed(c: KeyCombo)
    ensures WellFormed(c) <==> exists input :: Combo(input) == Ok(c)
  {
    hide Combo, TokensOf, PrintCombo;
    if WellFormed(c) {
      ComboOfPrint(c);
    }
    forall input | Combo(input) == Ok(c) ensures WellFormed(c) {
      ComboIsWellFormed(input, c);
    }
  }

  lemma ComboIsWellFormed(input: string, c: KeyCombo)
    requires Combo(input) == Ok(c)
    ensures WellFormed(c)
  {
    hide NamedKey, Classify, Combo;
    var tokens := TokensOf(Split(input, '+'));
    ComboMeans(input, c);
    KeysAreCodes(tokens);
    if KeysIn(tokens) == [] {
      SomethingNamed(tokens);
    } else {
      assert KeysIn(tokens)[0] in KeysIn(tokens);
    }
  }

  /** The other names of keys and modifiers that have a name in `KeyName` or `ModifierName`. */
  function Alias(name: string): Option<Token> {
    match |name|
    case 1 => (
      match name
      case "-" => Some(Key(0x2D))
      case "=" => Some(Key(0x2E))
      case "[" => Some(Key(0x2F))
      case "]" => Some(Key(0x30))
      case "\\" => Some(Key(0x31))
      case ";" => Some(Key(0x33))
      case "'" => Some(Key(0x34))
      case "`" => Some(Key(0x35))
      case "," => Some(Key(0x36))
      case "." => Some(Key(0x37))
      case "/" => Some(Key(0x38))
      case _ => None
    )
    case 3 => (
      match name
      case "DEL" => Some(Key(0x4C))
      case "WIN" => Some(Modifier(GUI))
      case _ => None
    )
    case 4 => (
      match name
      case "BKSP" => Some(Key(0x2A))
      case "PGUP" => Some(Key(0x4B))
      case "PGDN" => Some(Key(0x4E))
      case "META" => Some(Modifier(GUI))
      case _ => None
    )
    case 6 => (
      match name
      case "RETURN" => Some(Key(0x28))
      case "ESCAPE" => Some(Key(0x29))
      case "PERIOD" => Some(Key(0x37))
      case "PRTSCR" => Some(Key(0x46))
      case _ => None
    )
    case 7 => if name == "CONTROL" then Some(Modifier(CTRL)) else None
    case _ => None
  }

  lemma ShortNames(name: string, code: byte)
    requires |name| <= 2 && Classify(name) == Key(code)
    ensures KeyName(code) == name || Alias(name) == Some(Key(code))
  {
    if |name| == 1 {
      assert name == [name[0]];
    } else if |name| == 2 {
      assert name == [name[0], name[1]];
    }
  }

  lemma NamesOfThree(name: string, code: byte)
    requires 3 <= |name| <= 4 && Classify(name) == Key(code)
    ensures KeyName(code) == name || Alias(name) == Some(Key(code))
  {
  }

  lemma NamesOfFive(name: string, code: byte)
    requires |name| == 5 && Classify(name) == Key(code)
    ensures KeyName(code) == name
  {
  }

  lemma NamesOfSix(name: string, code: byte)
    requires |name| == 6 && Classify(name) == Key(code)
    ensures KeyName(code) == name || Alias(name) == Some(Key(code))
  {
  }

  lemma LongNames(name: string, code: byte)
    requires |name| >= 7 && Classify(name) == Key(code)
    ensures KeyName(code) == name || Alias(name) == Some(Key(code))
  {
  }

  lemma AliasesAreRead(name: string)
    requires Alias(name).Some?
    ensures Classify(name) == Alias(name).value
  {
  }

  /** A name stands for a key exactly if it is the key's printed name or its alias. */
  lemma KeyNamesAreExact(name: string, code: byte)
    ensures Classify(name) == Key(code) <==>
      IsKeyCode(code) && (name == KeyName(code) || Alias(name) == Some(Key(code)))
  {
    hide Classify, KeyName, Alias;
    if Classify(name) == Key(code) {
      if |name| <= 2 {
        ShortNames(name, code);
      } else if |name| <= 4 {
        NamesOfThree(name, code);
      } else if |name| == 5 {
        NamesOfFive(name, code);
      } else if |name| == 6 {
        NamesOfSix(name, code);
      } else {
        LongNames(name, code);
      }
    }
    if Alias(name) == Some(Key(code)) {
      AliasesAreRead(name);
    }
    if IsKeyCode(code) {
      KeyIsRead(code);
      PlainIsKept(KeyName(code));
    }
  }

  /** The same for modifiers. */
  lemma ModifierNamesAreExact(name: string, bit: ModifierBit)
    ensures Classify(name) == Modifier(bit) <==> name == ModifierName(bit) || Alias(name) == Some(Modifier(bit))
  {
    hide NamedKey;
    NamedKeyIsNoModifier(name);
    if Alias(name) == Some(Modifier(bit)) {
      AliasesAreRead(name);
    }
  }

  lemma NamedKeyIsNoModifier(name: string)
    ensures !NamedKey(name).Modifier?
  {
    hide NamedKey;
  }

  /** Case does not matter, anywhere in a combination. */
  lemma CaseDoesNotMatter(a: string, b: string)
    requires SameButForCase(a, b)
    ensures Combo(a) == Combo(b)
  {
    hide Classify, Strip, UpperAll, Split, Fold, Finish;
    PlusHasNoCase();
    SplitOfSame(a, b, '+');
    var p, q := Split(a, '+'), Split(b, '+');
    forall i | 0 <= i < |p| ensures TokensOf(p)[i] == TokensOf(q)[i] {
      FoldedIsSame(p[i], q[i]);
    }
    assert TokensOf(p) == TokensOf(q);
  }

  lemma PlusHasNoCase()
    ensures forall d :: SameLetter('+', d) ==> d == '+'
  {
  }

  lemma StripAppend(a: string, b: string)
    ensures Strip(a + b) == Strip(a) + Strip(b)
  {
    if a == "" {
      assert a + b == b;
    } else {
      assert (a + b)[1..] == a[1..] + b;
      StripAppend(a[1..], b);
    }
  }

  lemma UpperAppend(a: string, b: string)
    ensures UpperAll(a + b) == UpperAll(a) + UpperAll(b)
  {
  }

  lemma SpaceInPiece(a: string, space: char, b: string)
    requires space == ' ' || '\t' <= space <= '\r'
    ensures TokenOf(a + ([space] + b)) == TokenOf(a + b)
  {
    hide Classify, Strip, UpperAll;
    UpperAppend(a, [space] + b);
    UpperAppend([space], b);
    UpperAppend(a, b);
    StripAppend(UpperAll(a), UpperAll([space]) + UpperAll(b));
    StripAppend(UpperAll([space]), UpperAll(b));
    StripAppend(UpperAll(a), UpperAll(b));
    SpaceIsStripped(space);
    assert Strip(UpperAll(a)) + ("" + Strip(UpperAll(b))) == Strip(UpperAll(a)) + Strip(UpperAll(b));
  }

  lemma SpaceIsStripped(space: char)
    requires space == ' ' || '\t' <= space <= '\r'
    ensures Strip(UpperAll([space])) == ""
  {
    assert UpperAll([space]) == [space] && [space][1..] == "";
  }

  lemma {:induction false} SpaceInPieces(a: string, space: char, b: string)
    requires space == ' ' || '\t' <= space <= '\r'
    ensures TokensOf(Split(a + ([space] + b), '+')) == TokensOf(Split(a + b, '+'))
    decreases |a|
  {
    hide TokenOf, Split;
    var i := Index(a, '+');
    if i < |a| {
      var head, a' := a[..i], a[i + 1..];
      assert a == head + (['+'] + a');
      assert a + ([space] + b) == head + (['+'] + (a' + ([space] + b))) && a + b == head + (['+'] + (a' + b));
      SplitOfPiece(head, a' + ([space] + b), '+');
      SplitOfPiece(head, a' + b, '+');
      SpaceInPieces(a', space, b);
      TokensAppend([head], Split(a' + ([space] + b), '+'));
      TokensAppend([head], Split(a' + b, '+'));
    } else {
      SpaceInFirst(a, space, b);
    }
  }

  lemma SpaceInFirst(a: string, space: char, b: string)
    requires (space == ' ' || '\t' <= space <= '\r') && '+' !in a
    ensures TokensOf(Split(a + ([space] + b), '+')) == TokensOf(Split(a + b, '+'))
  {
    hide TokenOf, Split;
    var j := Index(b, '+');
    var last := b[..j];
    assert '+' !in a + ([space] + last) && '+' !in a + last;
    SpaceInPiece(a, space, last);
    if j < |b| {
      var later := b[j + 1..];
      assert a + ([space] + b) == a + ([space] + last) + (['+'] + later) && a + b == a + last + (['+'] + later);
      SplitOfPiece(a + ([space] + last), later, '+');
      SplitOfPiece(a + last, later, '+');
      TokensAppend([a + ([space] + last)], Split(later, '+'));
      TokensAppend([a + last], Split(later, '+'));
    } else {
      assert last == b;
      SplitOfPiece(a + ([space] + last), "", '+');
      SplitOfPiece(a + last, "", '+');
    }
    TokensOfOne([a + ([space] + last)]);
    TokensOfOne([a + last]);
  }

  /** Nor does white space, wherever it is put in. */
  lemma SpaceDoesNotMatter(a: string, space: char, b: string)
    requires space == ' ' || '\t' <= space <= '\r'
    ensures Combo(a + ([space] + b)) == Combo(a + b)
  {
    hide TokensOf, Split, Fold;
    SpaceInPieces(a, space, b);
  }

  // ---------------------------------------------------------------------------
  // The key table in the order of the HID usage page 0x07

  /** The keys from usage 0x28 on; usage 0x32 has no name. */
  const USAGES: seq<string> :=
    [
      "ENTER", "ESC", "BACKSPACE", "TAB", "SPACE", "MINUS", "EQUAL", "LBRACKET", "RBRACKET", "BACKSLASH", "",
      "SEMICOLON", "QUOTE", "GRAVE", "COMMA", "DOT", "SLASH", "CAPSLOCK", "F1", "F2", "F3", "F4", "F5", "F6",
      "F7", "F8", "F9", "F10", "F11", "F12", "PRINTSCREEN", "SCROLLLOCK", "PAUSE", "INSERT", "HOME", "PAGEUP",
      "DELETE", "END", "PAGEDOWN", "RIGHT", "LEFT", "DOWN", "UP"
    ]

  lemma UsagesAreNamedFirst(i: nat)
    requires i < 22 && i != 10
    ensures |USAGES| == 43 && USAGES[i] == KeyName(0x28 + i)
  {
    if i < 10 {
    }
  }

  lemma UsagesAreNamedLast(i: nat)
    requires 22 <= i < 43
    ensures |USAGES| == 43 && USAGES[i] == KeyName(0x28 + i)
  {
    if i < 32 {
    }
  }

  /** Every name stands for its usage: letters from 0x04, digits from 0x1E with 0 last, then the others. */
  lemma KeysAreUsages(i: nat)
    ensures i < 26 ==> Combo(['A' + i as char]) == Ok(KeyCombo(0, 0x04 + i))
    ensures 1 <= i < 10 ==> Combo(['0' + i as char]) == Ok(KeyCombo(0, 0x1D + i))
    ensures Combo("0") == Ok(KeyCombo(0, 0x27))
    ensures i < |USAGES| && i != 10 ==> Combo(USAGES[i]) == Ok(KeyCombo(0, 0x28 + i))
  {
    hide Combo, Named;
    if i < 26 {
      KeyAlone(0x04 + i);
    }
    if 1 <= i < 10 {
      KeyAlone(0x1D + i);
      assert '0' + i as char == '1' + (i - 1) as char;
    }
    KeyAlone(0x27);
    ZeroIsNamed();
    if i < 43 && i != 10 {
      if i < 22 { UsagesAreNamedFirst(i); } else { UsagesAreNamedLast(i); }
      KeyAlone(0x28 + i);
    }
  }

  lemma ZeroIsNamed()
    ensures KeyName(0x27) == "0" && |USAGES| == 43
  {
  }

  lemma KeyAlone(code: byte)
    requires IsKeyCode(code)
    ensures Combo(KeyName(code)) == Ok(KeyCombo(0, code))
  {
    hide Combo, KeyName;
    ComboOfPrint(KeyCombo(0, code));
    assert Modifiers(0) == [];
    assert Pieces(KeyCombo(0, code)) == [KeyName(code)];
  }

  /** The modifiers are the first four bits of the report's modifier byte. */
  lemma ModifiersAreBits()
    ensures Combo("CTRL") == Ok(KeyCombo(1, 0)) && Combo("SHIFT") == Ok(KeyCombo(2, 0))
    ensures Combo("ALT") == Ok(KeyCombo(4, 0)) && Combo("GUI") == Ok(KeyCombo(8, 0))
  {
    hide Combo;
    ComboOfPrint(KeyCombo(1, 0));
    ComboOfPrint(KeyCombo(2, 0));
    ComboOfPrint(KeyCombo(4, 0));
    ComboOfPrint(KeyCombo(8, 0));
    assert Pieces(KeyCombo(1, 0)) == ["CTRL"] && Pieces(KeyCombo(2, 0)) == ["SHIFT"];
    assert Pieces(KeyCombo(4, 0)) == ["ALT"] && Pieces(KeyCombo(8, 0)) == ["GUI"];
  }

  /** Two names for one key or modifier. */
  const SYNONYMS: seq<(string, string)> :=
    [
      ("CONTROL", "CTRL"), ("WIN", "GUI"), ("META", "GUI"), ("RETURN", "ENTER"), ("ESCAPE", "ESC"),
      ("BKSP", "BACKSPACE"), ("-", "MINUS"), ("=", "EQUAL"), ("[", "LBRACKET"), ("]", "RBRACKET"),
      ("\\", "BACKSLASH"), (";", "SEMICOLON"), ("'", "QUOTE"), ("`", "GRAVE"), (",", "COMMA"), ("PERIOD", "DOT"),
      (".", "DOT"), ("/", "SLASH"), ("PRTSCR", "PRINTSCREEN"), ("PGUP", "PAGEUP"), ("DEL", "DELETE"),
      ("PGDN", "PAGEDOWN")
    ]

  lemma SynonymsFirst(k: nat)
    requires 0 <= k < 4
    ensures |SYNONYMS| == 22
    ensures Classify(SYNONYMS[k].0) == Classify(SYNONYMS[k].1) && !Classify(SYNONYMS[k].0).Unknown?
  {
  }

  lemma SynonymsSecond(k: nat)
    requires 4 <= k < 8
    ensures |SYNONYMS| == 22
    ensures Classify(SYNONYMS[k].0) == Classify(SYNONYMS[k].1) && !Classify(SYNONYMS[k].0).Unknown?
  {
  }

  lemma SynonymsThird(k: nat)
    requires 8 <= k < 12
    ensures |SYNONYMS| == 22
    ensures Classify(SYNONYMS[k].0) == Classify(SYNONYMS[k].1) && !Classify(SYNONYMS[k].0).Unknown?
  {
  }

  lemma SynonymsFourth(k: nat)
    requires 12 <= k < 16
    ensures |SYNONYMS| == 22
    ensures Classify(SYNONYMS[k].0) == Classify(SYNONYMS[k].1) && !Classify(SYNONYMS[k].0).Unknown?
  {
  }

  lemma SynonymsFifth(k: nat)
    requires 16 <= k < 19
    ensures |SYNONYMS| == 22
    ensures Classify(SYNONYMS[k].0) == Classify(SYNONYMS[k].1) && !Classify(SYNONYMS[k].0).Unknown?
  {
  }

  lemma SynonymsSixth(k: nat)
    requires 19 <= k < 22
    ensures |SYNONYMS| == 22
    ensures Classify(SYNONYMS[k].0) == Classify(SYNONYMS[k].1) && !Classify(SYNONYMS[k].0).Unknown?
  {
  }

  lemma SynonymsAreSynonymous(k: nat)
    requires k < 22
    ensures |SYNONYMS| == 22
    ensures Classify(SYNONYMS[k].0) == Classify(SYNONYMS[k].1) && !Classify(SYNONYMS[k].0).Unknown?
  {
    hide Classify;
    if k < 4 {
      SynonymsFirst(k);
    } else if k < 8 {
      SynonymsSecond(k);
    } else if k < 12 {
      SynonymsThird(k);
    } else if k < 16 {
      SynonymsFourth(k);
    } else if k < 19 {
      SynonymsFifth(k);
    } else {
      SynonymsSixth(k);
    }
  }

  // ---------------------------------------------------------------------------
  // Mouse buttons

  /** mouse_button_mask, keys.hpp:99-111. */
  function MouseButton(name: string): Result<byte, KeyError> {
    var upper := UpperAll(name);
    if upper == "LEFT" || upper == "L" then Ok(0x01)
    else if upper == "RIGHT" || upper == "R" then Ok(0x02)
    else if upper == "MIDDLE" || upper == "M" then Ok(0x04)
    else Err(UnknownButton)
  }

  predicate IsButton(mask: byte) {
    mask == 0x01 || mask == 0x02 || mask == 0x04
  }

  function PrintButton(mask: byte): string
    requires IsButton(mask)
  {
    if mask == 0x01 then "LEFT" else if mask == 0x02 then "RIGHT" else "MIDDLE"
  }

  /** The buttons by their names, whole or by their first letter, in any case. */
  lemma ButtonsAreExact(name: string, mask: byte)
    ensures MouseButton(name) == Ok(mask) <==>
      || (mask == 1 && (SameButForCase(name, "left") || SameButForCase(name, "l")))
      || (mask == 2 && (SameButForCase(name, "right") || SameButForCase(name, "r")))
      || (mask == 4 && (SameButForCase(name, "middle") || SameButForCase(name, "m")))
  {
    hide UpperAll, SameButForCase;
    FoldedIsSame(name, "left");
    FoldedIsSame(name, "l");
    FoldedIsSame(name, "right");
    FoldedIsSame(name, "r");
    FoldedIsSame(name, "middle");
    FoldedIsSame(name, "m");
    CapitalButtons();
  }

  lemma CapitalButtons()
    ensures UpperAll("left") == "LEFT" && UpperAll("l") == "L" && UpperAll("right") == "RIGHT"
    ensures UpperAll("r") == "R" && UpperAll("middle") == "MIDDLE" && UpperAll("m") == "M"
  {
  }

  lemma ButtonOfPrint(mask: byte)
    requires IsButton(mask)
    ensures MouseButton(PrintButton(mask)) == Ok(mask)
  {
    PlainIsKept(PrintButton(mask));
  }

  // ---------------------------------------------------------------------------
  // Printed combinations are single words of a script line

  lemma {:induction false} UnsplitIsWord(pieces: seq<string>)
    requires pieces != [] && forall p :: p in pieces ==> Plain(p)
    requires |pieces| > 1 || pieces[0] != ""
    ensures IsWord(Unsplit(pieces, '+'))
  {
    assert pieces[0] in pieces;
    assert pieces[0] != "" ==> pieces[0][0] in pieces[0];
    if |pieces| > 1 {
      assert forall p :: p in pieces[1..] ==> p in pieces;
      if |pieces| > 2 || pieces[1] != "" {
        UnsplitIsWord(pieces[1..]);
      }
    }
  }

  lemma ComboIsWord(c: KeyCombo)
    requires WellFormed(c)
    ensures IsWord(PrintCombo(c))
  {
    hide KeyName, Modifiers, TokenOf, TokensOf;
    ModifiersAreRead(c.modifier);
    if c.keycode != 0 {
      KeyIsRead(c.keycode);
    }
    PiecesNotEmpty(c);
    FirstIsNamed(c);
    UnsplitIsWord(Pieces(c));
  }

  lemma FirstIsNamed(c: KeyCombo)
    requires WellFormed(c)
    ensures Pieces(c)[0] != ""
  {
    hide KeyName, HasBit;
    if c.keycode != 0 {
      KeyIsNamed(c.keycode);
    }
    PiecesNotEmpty(c);
    assert forall p :: p in Modifiers(c.modifier) ==> p != "";
    assert Pieces(c)[0] in Pieces(c);
  }

  lemma KeyIsNamed(code: byte)
    requires IsKeyCode(code)
    ensures KeyName(code) != ""
  {
    hide Named;
    if 0x27 <= code {
      NamedIsRead(code);
    }
  }
}
