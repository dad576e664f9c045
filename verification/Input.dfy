/** The input listener: XInput2 text, cut anywhere, to key counts and opaque hotkeys. */
module Input {
  import opened Wrappers
  import Prefixes

  // ----------------------------------------------------------------- one line

  datatype Xi2Line = KeyPress | ButtonPress | KeyRelease | Detail(code: nat) | Other

  predicate Includes(line: string, word: string) {
    word <= line || (line != "" && Includes(line[1..], word))
  }

  /** JavaScript's `\s`. */
  predicate IsSpace(c: char) {
    || c in {'\t', '\n', '\r', ' '}
    || c in {'\U{0B}', '\U{0C}', '\U{A0}', '\U{1680}', '\U{2028}', '\U{2029}', '\U{202F}', '\U{205F}', '\U{3000}',
      '\U{FEFF}'}
    || '\U{2000}' <= c <= '\U{200A}'
  }

  function SkipSpace(s: string): string {
    if s != "" && IsSpace(s[0]) then SkipSpace(s[1..]) else s
  }

  /** `^\s*detail:\s*(\d+)\s*$` */
  function ParseDetail(line: string): Option<nat> {
    var s := SkipSpace(line);
    if !("detail:" <= s) then None
    else
      var number := SkipSpace(s[7..]);
      var (code, rest) := Prefixes.TakeDigits(number, 0);
      if number == "" || !Prefixes.IsDigit(number[0]) || SkipSpace(rest) != "" then None else Some(code)
  }

  function ParseXi2Line(line: string): Xi2Line {
    if Includes(line, "(RawKeyPress)") then KeyPress
    else if Includes(line, "(RawButtonPress)") then ButtonPress
    else if Includes(line, "(RawKeyRelease)") then KeyRelease
    else match ParseDetail(line)
      case Some(code) => Detail(code)
      case None => Other
  }

  predicate AllSpace(s: string) {
    forall k | 0 <= k < |s| :: IsSpace(s[k])
  }

  lemma {:induction false} SkipsSpace(space: string, rest: string)
    requires AllSpace(space) && (rest == "" || !IsSpace(rest[0]))
    ensures SkipSpace(space + rest) == rest
  {
    if space == "" {
      assert space + rest == rest;
    } else {
      assert (space + rest)[1..] == space[1..] + rest;
      SkipsSpace(space[1..], rest);
    }
  }

  lemma {:induction false} NoParenthesis(line: string, word: string)
    requires '(' !in line && word != "" && word[0] == '('
    ensures !Includes(line, word)
  {
    if line != "" {
      NoParenthesis(line[1..], word);
    }
  }

  lemma {:induction false} IncludesWord(before: string, word: string, after: string)
    ensures Includes(before + word + after, word)
  {
    var line := before + word + after;
    if before == "" {
      assert word <= line;
    } else {
      assert line[1..] == before[1..] + word + after;
      IncludesWord(before[1..], word, after);
    }
  }

  /** Every code xinput can print, however it is spaced, is read back as that code. */
  lemma DetailReadsBack(indent: string, gap: string, code: nat, tail: string)
    requires AllSpace(indent) && AllSpace(gap) && AllSpace(tail)
    ensures ParseXi2Line(indent + ("detail:" + (gap + (Prefixes.NatToString(code) + tail)))) == Detail(code)
  {
    var digits := Prefixes.NatToString(code);
    var number := digits + tail;
    var body := "detail:" + (gap + number);
    var line := indent + body;
    assert '(' !in line;
    NoParenthesis(line, "(RawKeyPress)");
    NoParenthesis(line, "(RawButtonPress)");
    NoParenthesis(line, "(RawKeyRelease)");
    SkipsSpace(indent, body);
    assert body[7..] == gap + number;
    SkipsSpace(gap, number);
    Prefixes.TakesDigits(digits, tail, 0);
    Prefixes.DecimalReadsBack(code);
    assert tail != "" ==> !Prefixes.IsDigit(tail[0]);
    SkipsSpace(tail, "");
    assert tail + "" == tail;
  }

  /** A raw key press is recognised wherever its name stands in the line. */
  lemma PressIsRecognised(before: string, after: string)
    ensures ParseXi2Line(before + "(RawKeyPress)" + after) == KeyPress
  {
    IncludesWord(before, "(RawKeyPress)", after);
  }

  // ---------------------------------------------------------------- modifiers

  datatype Modifier = Ctrl | Alt | Shift | Super {
    function Name(): string {
      match this
      case Ctrl => "ctrl"
      case Alt => "alt"
      case Shift => "shift"
      case Super => "super"
    }
  }

  const MODIFIER_KEYCODES: map<nat, Modifier> :=
    map[37 := Ctrl, 105 := Ctrl, 50 := Shift, 62 := Shift, 64 := Alt, 108 := Alt, 133 := Super, 134 := Super]

  const MODIFIER_ORDER := [Ctrl, Alt, Shift, Super]

  const OPAQUE_KEY := "key"

  function HeldNames(held: set<nat>): set<Modifier> {
    set code | code in held && code in MODIFIER_KEYCODES :: MODIFIER_KEYCODES[code]
  }

  function KeepHeld(order: seq<Modifier>, names: set<Modifier>): seq<Modifier> {
    if order == [] then [] else (if order[0] in names then [order[0]] else []) + KeepHeld(order[1..], names)
  }

  function JoinPlus(parts: seq<Modifier>): string {
    if |parts| == 0 then "" else if |parts| == 1 then parts[0].Name() else parts[0].Name() + "+" + JoinPlus(parts[1..])
  }

  function CurrentHotkey(held: set<nat>): Option<string> {
    if held == {} then None
    else
      var names := HeldNames(held);
      if names == {} then None else Some(JoinPlus(KeepHeld(MODIFIER_ORDER, names)) + "+" + OPAQUE_KEY)
  }

  // ----------------------------------------------------------------- the state

  datatype Header = PressHeader | ButtonHeader | ReleaseHeader

  datatype Call = OnKey(hotkey: Option<string>) | OnClick

  /** Everything the listener remembers between lines. */
  datatype State = State(pending: Option<Header>, held: set<nat>)

  const INITIAL := State(None, {})

  function Heard(s: State, line: Xi2Line): State {
    match line
    case KeyPress => s.(pending := Some(PressHeader))
    case ButtonPress => s.(pending := Some(ButtonHeader))
    case KeyRelease => s.(pending := Some(ReleaseHeader))
    case Other => s
    case Detail(code) =>
      match s.pending
      case None => s
      case Some(ReleaseHeader) => State(None, s.held - {code})
      case Some(ButtonHeader) => State(None, s.held)
      case Some(PressHeader) => State(None, if code in MODIFIER_KEYCODES then s.held + {code} else s.held)
  }

  function Called(s: State, line: Xi2Line): seq<Call> {
    if !line.Detail? then []
    else match s.pending
      case Some(ButtonHeader) => [OnClick]
      case Some(PressHeader) => [OnKey(if line.code in MODIFIER_KEYCODES then None else CurrentHotkey(s.held))]
      case _ => []
  }

  /** The state after a whole sequence of lines. */
  function End(s: State, lines: seq<Xi2Line>): State {
    if lines == [] then s else Heard(End(s, lines[..|lines| - 1]), lines[|lines| - 1])
  }

  /** The callbacks made over a whole sequence of lines, in order. */
  function Calls(s: State, lines: seq<Xi2Line>): seq<Call> {
    if lines == [] then []
    else Calls(s, lines[..|lines| - 1]) + Called(End(s, lines[..|lines| - 1]), lines[|lines| - 1])
  }

  lemma {:induction false} RunConcat(s: State, a: seq<Xi2Line>, b: seq<Xi2Line>)
    ensures End(s, a + b) == End(End(s, a), b)
    ensures Calls(s, a + b) == Calls(s, a) + Calls(End(s, a), b)
  {
    if b == [] {
      assert a + b == a;
    } else {
      assert (a + b)[..|a + b| - 1] == a + b[..|b| - 1];
      RunConcat(s, a, b[..|b| - 1]);
    }
  }

  // ------------------------------------------------------------------ chunking

  /** The text after the last newline. */
  function Partial(text: string): (r: string)
    ensures '\n' !in r
  {
    if text == "" || text[|text| - 1] == '\n' then "" else Partial(text[..|text| - 1]) + [text[|text| - 1]]
  }

  /** The lines a newline has ended. */
  function Complete(text: string): seq<string> {
    if text == "" then []
    else
      var front := text[..|text| - 1];
      Complete(front) + if text[|text| - 1] == '\n' then [Partial(front)] else []
  }

  /** `text.split('\n')` */
  function Split(text: string): seq<string> {
    Complete(text) + [Partial(text)]
  }

  function ParseAll(lines: seq<string>): seq<Xi2Line> {
    seq(|lines|, k requires 0 <= k < |lines| => ParseXi2Line(lines[k]))
  }

  /** The listener with its leftover text. */
  datatype Feed = Feed(buffer: string, state: State)

  function Fed(f: Feed, chunk: string): Feed {
    Feed(Partial(f.buffer + chunk), End(f.state, ParseAll(Complete(f.buffer + chunk))))
  }

  function FedCalls(f: Feed, chunk: string): seq<Call> {
    Calls(f.state, ParseAll(Complete(f.buffer + chunk)))
  }

  function FedAll(f: Feed, chunks: seq<string>): Feed {
    if chunks == [] then f else Fed(FedAll(f, chunks[..|chunks| - 1]), chunks[|chunks| - 1])
  }

  function FedAllCalls(f: Feed, chunks: seq<string>): seq<Call> {
    if chunks == [] then []
    else FedAllCalls(f, chunks[..|chunks| - 1]) + FedCalls(FedAll(f, chunks[..|chunks| - 1]), chunks[|chunks| - 1])
  }

  function Flatten(chunks: seq<string>): string {
    if chunks == [] then "" else Flatten(chunks[..|chunks| - 1]) + chunks[|chunks| - 1]
  }

  lemma {:induction false} NoNewline(text: string)
    requires '\n' !in text
    ensures Complete(text) == [] && Partial(text) == text
  {
    if text != "" {
      NoNewline(text[..|text| - 1]);
    }
  }

  /** Splitting a joined text is splitting its head, and then the leftover joined to its tail. */
  lemma {:induction false} SplitConcat(a: string, b: string)
    ensures Complete(a + b) == Complete(a) + Complete(Partial(a) + b)
    ensures Partial(a + b) == Partial(Partial(a) + b)
  {
    if b == "" {
      assert a + b == a && Partial(a) + b == Partial(a);
      NoNewline(Partial(a));
    } else {
      var front := b[..|b| - 1];
      assert (a + b)[..|a + b| - 1] == a + front;
      assert (Partial(a) + b)[..|Partial(a) + b| - 1] == Partial(a) + front;
      SplitConcat(a, front);
    }
  }

  lemma FedNothing(f: Feed)
    requires '\n' !in f.buffer
    ensures Fed(f, "") == f && FedCalls(f, "") == []
  {
    assert f.buffer + "" == f.buffer;
    NoNewline(f.buffer);
  }

  /** Feeding twice is feeding the joined text. */
  lemma FedTwice(f: Feed, a: string, b: string)
    ensures Fed(Fed(f, a), b) == Fed(f, a + b)
    ensures FedCalls(f, a + b) == FedCalls(f, a) + FedCalls(Fed(f, a), b)
  {
    hide ParseXi2Line, End, Calls, Complete, Partial;
    var text := f.buffer + a;
    assert f.buffer + (a + b) == text + b;
    SplitConcat(text, b);
    var first, second := Complete(text), Complete(Partial(text) + b);
    RunConcat(f.state, ParseAll(first), ParseAll(second));
    assert ParseAll(first + second) == ParseAll(first) + ParseAll(second);
  }

  /** Chunking independence: however the text is cut, the listener ends the same and calls the same. */
  lemma {:induction false} ChunkingIndependence(f: Feed, chunks: seq<string>)
    requires '\n' !in f.buffer
    ensures FedAll(f, chunks) == Fed(f, Flatten(chunks))
    ensures FedAllCalls(f, chunks) == FedCalls(f, Flatten(chunks))
  {
    hide Fed, FedCalls;
    if chunks == [] {
      FedNothing(f);
    } else {
      ChunkingIndependence(f, chunks[..|chunks| - 1]);
      FedTwice(f, Flatten(chunks[..|chunks| - 1]), chunks[|chunks| - 1]);
    }
  }

  // ------------------------------------------------------------- cooked events

  predicate IsHeader(line: Xi2Line) {
    line.KeyPress? || line.ButtonPress? || line.KeyRelease?
  }

  /** Lines of events nobody counts: no raw header among them. */
  predicate Cooked(lines: seq<Xi2Line>) {
    forall k | 0 <= k < |lines| :: !IsHeader(lines[k])
  }

  predicate HasDetail(lines: seq<Xi2Line>) {
    exists k :: 0 <= k < |lines| && lines[k].Detail?
  }

  /**
   * Cooked lines call nothing unless a raw header is waiting; they change nothing exactly when none
   * is, or none of them is a detail.
   */
  lemma {:induction false} CookedChangesNothing(s: State, cooked: seq<Xi2Line>)
    requires Cooked(cooked)
    ensures End(s, cooked) == s <==> s.pending.None? || !HasDetail(cooked)
    ensures End(s, cooked) == s ==> Calls(s, cooked) == []
    ensures End(s, cooked) != s ==> End(s, cooked).pending.None?
  {
    if cooked != [] {
      var front := cooked[..|cooked| - 1];
      assert cooked == front + [cooked[|front|]];
      CookedChangesNothing(s, front);
      assert HasDetail(cooked) <==> HasDetail(front) || cooked[|front|].Detail?;
    }
  }

  /** Deleting cooked lines where no raw header is waiting changes neither the end state nor the calls. */
  lemma CookedCanBeDeleted(s: State, before: seq<Xi2Line>, cooked: seq<Xi2Line>, after: seq<Xi2Line>)
    requires Cooked(cooked) && (End(s, before).pending.None? || !HasDetail(cooked))
    ensures End(s, before + cooked + after) == End(s, before + after)
    ensures Calls(s, before + cooked + after) == Calls(s, before + after)
  {
    hide Heard, Called, End, Calls, HasDetail;
    RunConcat(s, before + cooked, after);
    RunConcat(s, before, cooked);
    RunConcat(s, before, after);
    CookedChangesNothing(End(s, before), cooked);
  }

  // ------------------------------------------------------------------- privacy

  /** Two codes the listener may not tell apart under a given header. */
  predicate SameToListener(pending: Option<Header>, a: nat, b: nat) {
    match pending
    case None => true
    case Some(ButtonHeader) => true
    case Some(_) => a == b || (a !in MODIFIER_KEYCODES && b !in MODIFIER_KEYCODES)
  }

  /** Two streams that differ only in codes of non-modifier keys, of buttons, and of details nobody claims. */
  ghost predicate Alike(s: State, a: seq<Xi2Line>, b: seq<Xi2Line>) {
    && |a| == |b|
    && forall k | 0 <= k < |a| ::
         if a[k].Detail? then b[k].Detail? && SameToListener(End(s, a[..k]).pending, a[k].code, b[k].code) else
           a[k] == b[k]
  }

  predicate OnlyModifiers(held: set<nat>) {
    forall code | code in held :: code in MODIFIER_KEYCODES
  }

  /** Nothing but modifiers is ever remembered as held. */
  lemma {:induction false} HeldAreModifiers(s: State, lines: seq<Xi2Line>)
    requires OnlyModifiers(s.held)
    ensures OnlyModifiers(End(s, lines).held)
  {
    if lines != [] {
      HeldAreModifiers(s, lines[..|lines| - 1]);
    }
  }

  lemma AlikeLines(s: State, x: Xi2Line, y: Xi2Line)
    requires OnlyModifiers(s.held)
    requires if x.Detail? then y.Detail? && SameToListener(s.pending, x.code, y.code) else x == y
    ensures Heard(s, x) == Heard(s, y) && Called(s, x) == Called(s, y)
  {
    hide CurrentHotkey;
    if x.Detail? && x.code !in MODIFIER_KEYCODES {
      assert x.code !in s.held && s.held - {x.code} == s.held;
      assert x != y ==> s.pending == Some(ReleaseHeader) ==> s.held - {y.code} == s.held;
    }
  }

  /** The two-run property: alike streams leave the same state and make the same calls. */
  lemma {:induction false} KeyIdentityDoesNotMatter(s: State, a: seq<Xi2Line>, b: seq<Xi2Line>)
    requires OnlyModifiers(s.held) && Alike(s, a, b)
    ensures End(s, a) == End(s, b) && Calls(s, a) == Calls(s, b)
  {
    hide Heard, Called, SameToListener, OnlyModifiers;
    if a != [] {
      var n := |a| - 1;
      assert forall k | 0 <= k < n :: a[..n][..k] == a[..k] && a[..n][k] == a[k] && b[..n][k] == b[k];
      KeyIdentityDoesNotMatter(s, a[..n], b[..n]);
      HeldAreModifiers(s, a[..n]);
      AlikeLines(End(s, a[..n]), a[n], b[n]);
    }
  }

  /** The canonical spelling of a set of modifiers held: one of fifteen, or nothing. */
  function Spelling(ctrl: bool, alt: bool, shift: bool, super_: bool): string {
    JoinPlus((if ctrl then [Ctrl] else []) + (if alt then [Alt] else []) + (if shift then [Shift] else []) +
      (if super_ then [Super] else []))
    + "+" + "key"
  }

  ghost predicate Canonical(hotkey: string) {
    exists ctrl, alt, shift, super_ :: (ctrl || alt || shift || super_) && hotkey == Spelling(ctrl, alt, shift, super_)
  }

  lemma NamesHeld(held: set<nat>)
    ensures Ctrl in HeldNames(held) <==> 37 in held || 105 in held
    ensures Alt in HeldNames(held) <==> 64 in held || 108 in held
    ensures Shift in HeldNames(held) <==> 50 in held || 62 in held
    ensures Super in HeldNames(held) <==> 133 in held || 134 in held
  {
    forall code | code in held && code in MODIFIER_KEYCODES ensures MODIFIER_KEYCODES[code] in HeldNames(held) {}
    assert MODIFIER_KEYCODES[37] == MODIFIER_KEYCODES[105] == Ctrl;
    assert MODIFIER_KEYCODES[64] == MODIFIER_KEYCODES[108] == Alt;
    assert MODIFIER_KEYCODES[50] == MODIFIER_KEYCODES[62] == Shift;
    assert MODIFIER_KEYCODES[133] == MODIFIER_KEYCODES[134] == Super;
  }

  lemma OrderedNames(names: set<Modifier>)
    ensures KeepHeld(MODIFIER_ORDER, names) ==
      (if Ctrl in names then [Ctrl] else []) + (if Alt in names then [Alt] else [])
      + (if Shift in names then [Shift] else []) + (if Super in names then [Super] else [])
  {
    var tail := MODIFIER_ORDER[1..];
    assert KeepHeld([Super], names) == if Super in names then [Super] else [];
    assert tail[1..][1..] == [Super];
    assert KeepHeld(tail[1..], names) == (if Shift in names then [Shift] else []) + KeepHeld([Super], names);
    assert KeepHeld(tail, names) == (if Alt in names then [Alt] else []) + KeepHeld(tail[1..], names);
  }

  /** There is a hotkey exactly when a modifier is held, and it spells the modifiers held and nothing else. */
  lemma HotkeySpellsModifiers(held: set<nat>)
    ensures CurrentHotkey(held).Some? <==> exists code :: code in held && code in MODIFIER_KEYCODES
    ensures CurrentHotkey(held).Some? ==> Canonical(CurrentHotkey(held).value)
    ensures CurrentHotkey(held).Some? ==>
      CurrentHotkey(held).value ==
        Spelling(37 in held || 105 in held, 64 in held || 108 in held, 50 in held || 62 in held, 133 in held ||
        134 in held)
  {
    hide JoinPlus;
    var names := HeldNames(held);
    forall code | code in held && code in MODIFIER_KEYCODES ensures MODIFIER_KEYCODES[code] in names {}
    NamesHeld(held);
    OrderedNames(names);
    if CurrentHotkey(held).Some? {
      var name :| name in names;
      assert name.Ctrl? || name.Alt? || name.Shift? || name.Super?;
      assert CurrentHotkey(held).value == Spelling(Ctrl in names, Alt in names, Shift in names, Super in names);
    }
  }

  /** Every callback ever made is a click, a bare count, or a canonical hotkey. */
  lemma {:induction false} CallsAreCanonical(s: State, lines: seq<Xi2Line>)
    ensures forall k | 0 <= k < |Calls(s, lines)| ::
      Calls(s, lines)[k].OnKey? && Calls(s, lines)[k].hotkey.Some? ==> Canonical(Calls(s, lines)[k].hotkey.value)
  {
    if lines != [] {
      CallsAreCanonical(s, lines[..|lines| - 1]);
      HotkeySpellsModifiers(End(s, lines[..|lines| - 1]).held);
    }
  }

  // -------------------------------------------------------------- the listener

  class InputListener {
    var buffer: string
    var pending: Option<Header>
    var heldModifiers: set<nat>
    /** The callbacks made so far; one that throws is reported and changes nothing here. */
    var calls: seq<Call>

    constructor ()
      ensures Value() == Feed("", INITIAL) && calls == []
    {
      buffer, pending, heldModifiers, calls := "", None, {}, [];
    }

    function Value(): Feed
      reads this
    {
      Feed(buffer, State(pending, heldModifiers))
    }

    method ConsumeText(text: string)
      modifies this
      ensures Value() == Fed(old(Value()), text) && calls == old(calls) + FedCalls(old(Value()), text)
    {
      hide Heard, Called, ParseXi2Line;
      buffer := buffer + text;
      var lines := Split(buffer);
      buffer := lines[|lines| - 1];
      lines := lines[..|lines| - 1];
      ghost var parsed := ParseAll(lines);
      for k := 0 to |lines|
        invariant buffer == Partial(old(buffer) + text)
        invariant State(pending, heldModifiers) == End(old(Value()).state, parsed[..k])
        invariant calls == old(calls) + Calls(old(Value()).state, parsed[..k])
      {
        assert parsed[..k + 1][..k] == parsed[..k];
        HandleLine(lines[k]);
      }
      assert parsed[..|lines|] == parsed;
    }

    method HandleLine(line: string)
      modifies this`pending, this`heldModifiers, this`calls
      ensures State(pending, heldModifiers) == Heard(old(State(pending, heldModifiers)), ParseXi2Line(line))
      ensures calls == old(calls) + Called(old(State(pending, heldModifiers)), ParseXi2Line(line))
    {
      var parsed := ParseXi2Line(line);
      match parsed {
        case Other => return;
        case KeyPress => pending := Some(PressHeader); return;
        case ButtonPress => pending := Some(ButtonHeader); return;
        case KeyRelease => pending := Some(ReleaseHeader); return;
        case Detail(code) =>
          if pending.None? {
            return;
          }
          var kind := pending.value;
          pending := None;

          if kind == ReleaseHeader {
            heldModifiers := heldModifiers - {code};
            return;
          }
          if kind == ButtonHeader {
            calls := calls + [OnClick];
            return;
          }
          if code in MODIFIER_KEYCODES {
            heldModifiers := heldModifiers + {code};
            calls := calls + [OnKey(None)];
            return;
          }
          calls := calls + [OnKey(CurrentHotkey(heldModifiers))];
      }
    }

    method Stop()
      modifies this
      ensures Value() == Feed("", INITIAL) && calls == old(calls)
    {
      heldModifiers := {};
      pending := None;
      buffer := "";
    }
  }
}
