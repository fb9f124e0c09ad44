/**
  The search wizard of one chat: seventeen steps, with buttons of earlier steps that keep working, restarts,
  editing of stored searches, and a store that may fail.
 */
module Wizard {
  import opened QueryKey
  import opened Wrappers

  const TIMEOUT := 1800
  const MAX_KEYWORDS := 500
  const FIRST_YEAR := 1990
  const LEAST_PRICE := 1000
  const MOST_PRICE := 10_000_000

  datatype Step =
    | Idle | AskSource | AskManufacturer | SearchManufacturer | AskModel | SearchModel
    | AskYearMin | AskYearMax | AskPriceMax | AskPriceMin | AskGearBox | AskEngine
    | AskMaxKm | AskMaxHand | AskKeywords | AskExcludeKeys | Confirm

  datatype Data = Data(
    source: string, manufacturer: int, model: int, yearMin: int, yearMax: int, priceMin: int, priceMax: int,
    gearBox: string, engineMinCC: int, maxKm: int, maxHand: int, keywords: string, excludeKeys: string,
    editId: int, updatedAt: int)

  const EMPTY := Data("", 0, 0, 0, 0, 0, 0, "", 0, 0, 0, "", "", 0, 0)

  // The stored state of the chat, and the searches it has saved.
  datatype Session = Session(step: Step, data: Data, saved: seq<Data>)

  // What the chat's user does. Typed text is trimmed; button payloads are as received.
  datatype Input =
    | Watch | Edit(search: Data) | Cancel | EditRestart
    | SourceToggled(source: string) | LegacySource(source: string) | SourceDone
    | ManufacturerSearch | ModelSearch | Manufacturer(raw: string) | Model(raw: string)
    | SkipPriceMin | GearBox(choice: string) | Engine(raw: string) | MaxKm(raw: string) | MaxHand(raw: string)
    | SkipKeywords | SkipExcludeKeys | Typed(text: string) | ConfirmPressed

  // What the clock and the store answer while one input is handled. Reading the data fails with an empty
  // record, a failed save leaves everything, and a failed reset goes unnoticed.
  datatype Env = Env(now: int, year: int, seesUser: bool, seesAge: bool, loads: bool, saves: bool, resets: bool,
                     stores: bool, overLimit: bool)

  // Language-dependent parts.
  datatype Config = Config(
    isSkip: string -> bool, normalize: string -> string, runes: string -> nat, toggle: (string, string) -> string)

  /* ---- numbers ---- */

  function Number(s: string): Option<int> {
    var digits := if s != [] && (s[0] == '-' || s[0] == '+') then s[1..] else s;
    if digits == [] || !AllDigits(digits) then None
    else
      var v := if s[0] == '-' then -ValueOf(digits) else ValueOf(digits);
      if -0x8000_0000_0000_0000 <= v < 0x8000_0000_0000_0000 then Some(v) else None
  }

  function WithoutCommas(s: string): string {
    if s == [] then [] else (if s[0] == ',' then [] else [s[0]]) + WithoutCommas(s[1..])
  }

  predicate NumberIn(n: Option<int>, lo: int, hi: int) {
    n.Some? && lo <= n.value <= hi
  }

  /* ---- the store ---- */

  function Loaded(s: Session, env: Env): Data {
    if env.loads then s.data else EMPTY
  }

  function Save(s: Session, step: Step, d: Data, env: Env): Session {
    if env.saves then s.(step := step, data := d.(updatedAt := env.now)) else s
  }

  function Reset(s: Session, step: Step, env: Env): Session {
    if env.resets then s.(step := step, data := EMPTY) else s
  }

  /* ---- one input ---- */

  // A button that counts only at its own step; found is the step the handler read before the data.
  function Pressed(s: Session, found: Step, at: Step, next: Step, d: Data, env: Env): Session {
    if env.seesUser && found == at then Save(s, next, d, env) else s
  }

  function ManufacturerPressed(s: Session, found: Step, n: Option<int>, env: Env): Session {
    if n.None? || n.value < 0 then s
    else
      var d := Loaded(s, env).(manufacturer := n.value);
      if n.value == 0 then Pressed(s, found, AskManufacturer, AskYearMin, d.(model := 0), env)
      else Pressed(s, found, AskManufacturer, AskModel, d, env)
  }

  function SourceFinished(s: Session, env: Env): Session {
    var d := Loaded(s, env);
    if d.source == "" then s else Save(s, AskManufacturer, d, env)
  }

  predicate Stale(s: Session, env: Env) {
    env.seesAge && s.data.updatedAt > 0 && env.now - s.data.updatedAt > TIMEOUT
  }

  function YearMinTyped(s: Session, n: Option<int>, env: Env): Session {
    if !NumberIn(n, FIRST_YEAR, env.year + 2) then s
    else Save(s, AskYearMax, Loaded(s, env).(yearMin := n.value), env)
  }

  function YearMaxTyped(s: Session, n: Option<int>, env: Env): Session {
    if !NumberIn(n, FIRST_YEAR, env.year + 2) || n.value < Loaded(s, env).yearMin then s
    else Save(s, AskPriceMax, Loaded(s, env).(yearMax := n.value), env)
  }

  function PriceMaxTyped(s: Session, n: Option<int>, env: Env): Session {
    if !NumberIn(n, LEAST_PRICE, MOST_PRICE) then s
    else Save(s, AskPriceMin, Loaded(s, env).(priceMax := n.value), env)
  }

  function PriceMinTyped(s: Session, skip: bool, n: Option<int>, env: Env): Session {
    var d := Loaded(s, env);
    if skip then Save(s, AskGearBox, d.(priceMin := 0), env)
    else if !NumberIn(n, 0, MOST_PRICE) || (d.priceMax > 0 && n.value > d.priceMax) then s
    else Save(s, AskGearBox, d.(priceMin := n.value), env)
  }

  function WordsTyped(c: Config, text: string): Option<string> {
    if c.isSkip(text) then Some("")
    else if c.runes(text) > MAX_KEYWORDS then None
    else Some(c.normalize(text))
  }

  // Text typed when the handler found the chat at a step.
  function TypedAt(c: Config, s: Session, at: Step, text: string, env: Env): Session {
    if !env.seesUser then s
    else if at != Idle && Stale(s, env) then Reset(s, Idle, env)
    else
      match at
      case SearchManufacturer => Save(s, AskManufacturer, Loaded(s, env), env)
      case SearchModel => Save(s, AskModel, Loaded(s, env), env)
      case AskYearMin => YearMinTyped(s, Number(text), env)
      case AskYearMax => YearMaxTyped(s, Number(text), env)
      case AskPriceMax => PriceMaxTyped(s, Number(WithoutCommas(text)), env)
      case AskPriceMin => PriceMinTyped(s, c.isSkip(text) || text == "0", Number(WithoutCommas(text)), env)
      case AskKeywords =>
        var words := WordsTyped(c, text);
        if words.None? then s else Save(s, AskExcludeKeys, Loaded(s, env).(keywords := words.value), env)
      case AskExcludeKeys =>
        var words := WordsTyped(c, text);
        if words.None? then s else Save(s, Confirm, Loaded(s, env).(excludeKeys := words.value), env)
      case _ => s
  }

  // The search stored from the data; one without a source gets the default one.
  function SearchOf(d: Data): Data {
    d.(source := if d.source == "" then "yad2" else d.source)
  }

  // A new search also counts against the chat's limit.
  function Confirmed(s: Session, found: Step, env: Env): Session {
    var d := Loaded(s, env);
    if !env.seesUser || found != Confirm || !env.stores || (d.editId <= 0 && env.overLimit) then s
    else Reset(s.(saved := s.saved + [SearchOf(d)]), Idle, env)
  }

  // One input on a chat that its handler found at a step, and whose data it reads afterwards.
  function HandledAt(c: Config, s: Session, found: Step, i: Input, env: Env): Session {
    match i
    case Watch => if env.overLimit then s else Reset(s, AskSource, env)
    case Edit(d) => Save(s, AskSource, d, env)
    case Cancel => Reset(s, Idle, env)
    case EditRestart => Save(s, AskSource, EMPTY.(editId := Loaded(s, env).editId), env)
    case SourceToggled(source) =>
      Save(s, AskSource, Loaded(s, env).(source := c.toggle(Loaded(s, env).source, source)), env)
    case LegacySource(source) =>
      if !env.saves then s else SourceFinished(Save(s, AskSource, Loaded(s, env).(source := source), env), env)
    case SourceDone => SourceFinished(s, env)
    case ManufacturerSearch => Save(s, SearchManufacturer, Loaded(s, env), env)
    case ModelSearch => Save(s, SearchModel, Loaded(s, env), env)
    case Manufacturer(raw) => ManufacturerPressed(s, found, Number(raw), env)
    case Model(raw) =>
      if Number(raw).None? then s else Pressed(s, found, AskModel, AskYearMin, Loaded(s, env).(model := Number(raw).value), env)
    case SkipPriceMin => Pressed(s, found, AskPriceMin, AskGearBox, Loaded(s, env).(priceMin := 0), env)
    case GearBox(choice) =>
      Pressed(s, found, AskGearBox, AskEngine, Loaded(s, env).(gearBox := if choice == "any" then "" else choice), env)
    case Engine(raw) =>
      if Number(raw).None? then s else Pressed(s, found, AskEngine, AskMaxKm, Loaded(s, env).(engineMinCC := Number(raw).value), env)
    case MaxKm(raw) =>
      if Number(raw).None? then s else Pressed(s, found, AskMaxKm, AskMaxHand, Loaded(s, env).(maxKm := Number(raw).value), env)
    case MaxHand(raw) =>
      if Number(raw).None? then s else Pressed(s, found, AskMaxHand, AskKeywords, Loaded(s, env).(maxHand := Number(raw).value), env)
    case SkipKeywords => Pressed(s, found, AskKeywords, AskExcludeKeys, Loaded(s, env).(keywords := ""), env)
    case SkipExcludeKeys => Pressed(s, found, AskExcludeKeys, Confirm, Loaded(s, env).(excludeKeys := ""), env)
    case Typed(text) => TypedAt(c, s, found, text, env)
    case ConfirmPressed => Confirmed(s, found, env)
  }

  // One input under the chat's lock.
  function Handled(c: Config, s: Session, i: Input, env: Env): Session {
    HandledAt(c, s, s.step, i, env)
  }

  /* ---- what the data satisfies at each step ---- */

  predicate YearMinSet(step: Step) {
    step.AskYearMax? || YearMaxSet(step)
  }

  predicate YearMaxSet(step: Step) {
    step.AskPriceMax? || PriceMaxSet(step)
  }

  predicate PriceMaxSet(step: Step) {
    step.AskPriceMin? || PriceMinSet(step)
  }

  predicate PriceMinSet(step: Step) {
    step in {AskGearBox, AskEngine, AskMaxKm, AskMaxHand, AskKeywords, AskExcludeKeys, Confirm}
  }

  ghost predicate Fits(step: Step, d: Data) {
    && (YearMinSet(step) ==> FIRST_YEAR <= d.yearMin)
    && (YearMaxSet(step) ==> d.yearMin <= d.yearMax)
    && (PriceMaxSet(step) ==> LEAST_PRICE <= d.priceMax <= MOST_PRICE)
    && (PriceMinSet(step) ==> 0 <= d.priceMin <= d.priceMax)
  }

  // What a saved search is to satisfy.
  ghost predicate Acceptable(d: Data) {
    FIRST_YEAR <= d.yearMin <= d.yearMax && LEAST_PRICE <= d.priceMax <= MOST_PRICE && 0 <= d.priceMin <= d.priceMax
  }

  ghost predicate Sane(s: Session) {
    Fits(s.step, s.data) && forall k :: 0 <= k < |s.saved| ==> Acceptable(s.saved[k])
  }

  /* ---- when an input keeps it ---- */

  // The text is one the step takes, given the data read.
  predicate Accepted(c: Config, d: Data, at: Step, text: string, env: Env) {
    match at
    case AskYearMin => NumberIn(Number(text), FIRST_YEAR, env.year + 2)
    case AskYearMax => NumberIn(Number(text), FIRST_YEAR, env.year + 2) && Number(text).value >= d.yearMin
    case AskPriceMax => NumberIn(Number(WithoutCommas(text)), LEAST_PRICE, MOST_PRICE)
    case AskPriceMin =>
      var n := Number(WithoutCommas(text));
      c.isSkip(text) || text == "0" || (NumberIn(n, 0, MOST_PRICE) && (d.priceMax <= 0 || n.value <= d.priceMax))
    case AskKeywords => WordsTyped(c, text).Some?
    case AskExcludeKeys => WordsTyped(c, text).Some?
    case _ => false
  }

  // The input is taken at the step its handler found, so that what was read is built upon.
  predicate Takes(c: Config, s: Session, found: Step, i: Input, env: Env) {
    var d := Loaded(s, env);
    env.seesUser &&
    match i
    case Typed(text) => env.saves && !Stale(s, env) && Accepted(c, d, found, text, env)
    case SkipPriceMin => env.saves && found == AskPriceMin
    case GearBox(_) => env.saves && found == AskGearBox
    case Engine(raw) => env.saves && found == AskEngine && Number(raw).Some?
    case MaxKm(raw) => env.saves && found == AskMaxKm && Number(raw).Some?
    case MaxHand(raw) => env.saves && found == AskMaxHand && Number(raw).Some?
    case SkipKeywords => env.saves && found == AskKeywords
    case SkipExcludeKeys => env.saves && found == AskExcludeKeys
    case ConfirmPressed => found == Confirm && env.stores && (d.editId > 0 || !env.overLimit)
    case _ => false
  }

  // The input is harmless: not taken, or the data read satisfies what the step found promises.
  ghost predicate Harmless(c: Config, s: Session, found: Step, i: Input, env: Env) {
    Takes(c, s, found, i, env) ==> Fits(found, Loaded(s, env))
  }

  lemma YearExactly(c: Config, s: Session, found: Step, text: string, env: Env)
    requires Sane(s) && (found.AskYearMin? || found.AskYearMax?)
    ensures Sane(TypedAt(c, s, found, text, env)) <==> Harmless(c, s, found, Typed(text), env)
  {
  }

  lemma PriceExactly(c: Config, s: Session, found: Step, text: string, env: Env)
    requires Sane(s) && (found.AskPriceMax? || found.AskPriceMin?)
    ensures Sane(TypedAt(c, s, found, text, env)) <==> Harmless(c, s, found, Typed(text), env)
  {
  }

  lemma WordsExactly(c: Config, s: Session, found: Step, text: string, env: Env)
    requires Sane(s) && (found.AskKeywords? || found.AskExcludeKeys?)
    ensures Sane(TypedAt(c, s, found, text, env)) <==> Harmless(c, s, found, Typed(text), env)
  {
  }

  lemma TypedExactly(c: Config, s: Session, found: Step, text: string, env: Env)
    requires Sane(s)
    ensures Sane(HandledAt(c, s, found, Typed(text), env)) <==> Harmless(c, s, found, Typed(text), env)
  {
    match found {
      case AskYearMin => YearExactly(c, s, found, text, env);
      case AskYearMax => YearExactly(c, s, found, text, env);
      case AskPriceMax => PriceExactly(c, s, found, text, env);
      case AskPriceMin => PriceExactly(c, s, found, text, env);
      case AskKeywords => WordsExactly(c, s, found, text, env);
      case AskExcludeKeys => WordsExactly(c, s, found, text, env);
      case _ =>
    }
  }

  predicate LateButton(i: Input) {
    i.SkipPriceMin? || i.GearBox? || i.Engine? || i.MaxKm? || i.MaxHand? || i.SkipKeywords? || i.SkipExcludeKeys?
  }

  predicate SameRanges(d: Data, e: Data) {
    d.yearMin == e.yearMin && d.yearMax == e.yearMax && d.priceMin == e.priceMin && d.priceMax == e.priceMax
  }

  // A button past the lower price leaves years and prices as they were read.
  lemma LatePressed(s: Session, found: Step, at: Step, next: Step, d: Data, e: Data, env: Env)
    requires Sane(s) && PriceMinSet(at) && PriceMinSet(next) && SameRanges(d, e)
    ensures Sane(Pressed(s, found, at, next, e, env)) <==> (env.seesUser && env.saves && found == at ==> Fits(at, d))
  {
  }

  lemma PriceMinPressed(s: Session, found: Step, d: Data, env: Env)
    requires Sane(s)
    ensures Sane(Pressed(s, found, AskPriceMin, AskGearBox, d.(priceMin := 0), env)) <==>
            (env.seesUser && env.saves && found == AskPriceMin ==> Fits(AskPriceMin, d))
  {
  }

  lemma EngineExactly(c: Config, s: Session, found: Step, raw: string, env: Env)
    requires Sane(s)
    ensures Sane(HandledAt(c, s, found, Engine(raw), env)) <==> Harmless(c, s, found, Engine(raw), env)
  {
    var d, n := Loaded(s, env), Number(raw);
    if n.Some? {
      LatePressed(s, found, AskEngine, AskMaxKm, d, d.(engineMinCC := n.value), env);
    }
  }

  lemma MaxKmExactly(c: Config, s: Session, found: Step, raw: string, env: Env)
    requires Sane(s)
    ensures Sane(HandledAt(c, s, found, MaxKm(raw), env)) <==> Harmless(c, s, found, MaxKm(raw), env)
  {
    var d, n := Loaded(s, env), Number(raw);
    if n.Some? {
      LatePressed(s, found, AskMaxKm, AskMaxHand, d, d.(maxKm := n.value), env);
    }
  }

  lemma MaxHandExactly(c: Config, s: Session, found: Step, raw: string, env: Env)
    requires Sane(s)
    ensures Sane(HandledAt(c, s, found, MaxHand(raw), env)) <==> Harmless(c, s, found, MaxHand(raw), env)
  {
    var d, n := Loaded(s, env), Number(raw);
    if n.Some? {
      LatePressed(s, found, AskMaxHand, AskKeywords, d, d.(maxHand := n.value), env);
    }
  }

  lemma WordsButtonExactly(c: Config, s: Session, found: Step, i: Input, env: Env)
    requires Sane(s) && (i.SkipKeywords? || i.SkipExcludeKeys?)
    ensures Sane(HandledAt(c, s, found, i, env)) <==> Harmless(c, s, found, i, env)
  {
    var d := Loaded(s, env);
    LatePressed(s, found, AskKeywords, AskExcludeKeys, d, d.(keywords := ""), env);
    LatePressed(s, found, AskExcludeKeys, Confirm, d, d.(excludeKeys := ""), env);
  }

  lemma ButtonExactly(c: Config, s: Session, found: Step, i: Input, env: Env)
    requires Sane(s) && LateButton(i)
    ensures Sane(HandledAt(c, s, found, i, env)) <==> Harmless(c, s, found, i, env)
  {
    var d := Loaded(s, env);
    match i {
      case SkipPriceMin => PriceMinPressed(s, found, d, env);
      case GearBox(choice) =>
        LatePressed(s, found, AskGearBox, AskEngine, d, d.(gearBox := if choice == "any" then "" else choice), env);
      case SkipKeywords => WordsButtonExactly(c, s, found, i, env);
      case SkipExcludeKeys => WordsButtonExactly(c, s, found, i, env);
      case Engine(raw) => EngineExactly(c, s, found, raw, env);
      case MaxKm(raw) => MaxKmExactly(c, s, found, raw, env);
      case MaxHand(raw) => MaxHandExactly(c, s, found, raw, env);
    }
  }

  lemma ConfirmExactly(c: Config, s: Session, found: Step, env: Env)
    requires Sane(s)
    ensures Sane(HandledAt(c, s, found, ConfirmPressed, env)) <==> Harmless(c, s, found, ConfirmPressed, env)
  {
    var t := Confirmed(s, found, env);
    assert t.saved != s.saved ==> t.saved[|s.saved|] == SearchOf(Loaded(s, env));
  }

  predicate EarlyButton(i: Input) {
    i.Manufacturer? || i.Model? || i.LegacySource?
  }

  lemma ManufacturerKeepsSane(s: Session, found: Step, n: Option<int>, env: Env)
    requires Sane(s)
    ensures Sane(ManufacturerPressed(s, found, n, env))
  {
  }

  lemma EarlyKeepsSane(c: Config, s: Session, found: Step, i: Input, env: Env)
    requires Sane(s) && EarlyButton(i)
    ensures Sane(HandledAt(c, s, found, i, env))
  {
    if i.Manufacturer? {
      ManufacturerKeepsSane(s, found, Number(i.raw), env);
    }
  }

  lemma RestartKeepsSane(c: Config, s: Session, found: Step, i: Input, env: Env)
    requires Sane(s) && !EarlyButton(i) && !LateButton(i) && !i.Typed? && !i.ConfirmPressed?
    ensures Sane(HandledAt(c, s, found, i, env))
  {
  }

  /** On a chat whose data satisfies what its step promises, an input keeps that, whatever was found, read
      or failed, if and only if it is harmless. */
  lemma HandledExactly(c: Config, s: Session, found: Step, i: Input, env: Env)
    requires Sane(s)
    ensures Sane(HandledAt(c, s, found, i, env)) <==> Harmless(c, s, found, i, env)
  {
    if LateButton(i) {
      ButtonExactly(c, s, found, i, env);
    } else if i.Typed? {
      TypedExactly(c, s, found, i.text, env);
    } else if i.ConfirmPressed? {
      ConfirmExactly(c, s, found, env);
    } else if EarlyButton(i) {
      EarlyKeepsSane(c, s, found, i, env);
    } else {
      RestartKeepsSane(c, s, found, i, env);
    }
  }

  /** A failed read under the lock does harm exactly when the input is taken at a step past the first year:
      the steps before it promise nothing. */
  lemma FailedReadExactly(c: Config, s: Session, i: Input, env: Env)
    requires Sane(s) && !env.loads
    ensures Sane(Handled(c, s, i, env)) <==> !(Takes(c, s, s.step, i, env) && YearMinSet(s.step))
  {
    HandledExactly(c, s, s.step, i, env);
  }

  // The commands that write the chat's state without its lock.
  datatype Unlocked = WatchCommand | CancelCommand | EditCommand(search: Data)

  function AsInput(u: Unlocked): Input {
    match u
    case WatchCommand => Watch
    case CancelCommand => Cancel
    case EditCommand(d) => Edit(d)
  }

  /** One of them slipping in after a handler found the chat at a step and before it reads the data does
      harm exactly when the input is still taken and the data left does not satisfy what that step
      promises; after a working watch or cancel that is any step past the first year. */
  lemma OvertakenExactly(c: Config, s: Session, u: Unlocked, between: Env, i: Input, env: Env)
    requires Sane(s)
    ensures var v := Handled(c, s, AsInput(u), between);
            && (Sane(HandledAt(c, v, s.step, i, env)) <==> Harmless(c, v, s.step, i, env))
            && (!u.EditCommand? && v != s ==>
                  (Harmless(c, v, s.step, i, env) <==> !(Takes(c, v, s.step, i, env) && YearMinSet(s.step))))
  {
    var v := Handled(c, s, AsInput(u), between);
    HandledExactly(c, s, s.step, AsInput(u), between);
    HandledExactly(c, v, s.step, i, env);
  }

  /* ---- runs ---- */

  // A turn is one input handled under the lock, or one overtaken by an unlocked command.
  datatype Turn =
    | Locked(input: Input, env: Env)
    | Overtaken(input: Input, env: Env, command: Unlocked, between: Env)

  // The chat as the handler's reads find it.
  function Before(c: Config, s: Session, t: Turn): Session {
    if t.Locked? then s else Handled(c, s, AsInput(t.command), t.between)
  }

  function Played(c: Config, s: Session, t: Turn): Session {
    HandledAt(c, Before(c, s, t), s.step, t.input, t.env)
  }

  const START := Session(Idle, EMPTY, [])

  function After(c: Config, turns: seq<Turn>): Session {
    if turns == [] then START else Played(c, After(c, turns[..|turns| - 1]), turns[|turns| - 1])
  }

  ghost predicate HarmlessTurn(c: Config, s: Session, t: Turn) {
    Harmless(c, Before(c, s, t), s.step, t.input, t.env)
  }

  ghost predicate AllHarmless(c: Config, turns: seq<Turn>) {
    turns == [] ||
    (AllHarmless(c, turns[..|turns| - 1]) && HarmlessTurn(c, After(c, turns[..|turns| - 1]), turns[|turns| - 1]))
  }

  ghost predicate AlwaysSane(c: Config, turns: seq<Turn>) {
    Sane(After(c, turns)) && (turns == [] || AlwaysSane(c, turns[..|turns| - 1]))
  }

  lemma PlayedExactly(c: Config, s: Session, t: Turn)
    requires Sane(s)
    ensures Sane(Played(c, s, t)) <==> HarmlessTurn(c, s, t)
  {
    if t.Overtaken? {
      HandledExactly(c, s, s.step, AsInput(t.command), t.between);
    }
    HandledExactly(c, Before(c, s, t), s.step, t.input, t.env);
  }

  /** Over every run, with any failures and any overtaking: the data always satisfies what its step
      promises, and so does every saved search, if and only if every turn is harmless. */
  lemma {:induction false} RunsExactly(c: Config, turns: seq<Turn>)
    ensures AlwaysSane(c, turns) <==> AllHarmless(c, turns)
  {
    if turns != [] {
      var front := turns[..|turns| - 1];
      RunsExactly(c, front);
      if AlwaysSane(c, front) {
        PlayedExactly(c, After(c, front), turns[|turns| - 1]);
      }
    }
  }

  // Without failed reads and overtaking every turn is harmless.
  lemma HarmlessUnderLock(c: Config, s: Session, i: Input, env: Env)
    requires Sane(s) && env.loads
    ensures Harmless(c, s, s.step, i, env)
  {
  }

  /** Over every run in which no read of the data fails and no handler is overtaken, whatever else fails and
      however often the user goes back, restarts or edits a search with any values: what is shown for
      confirmation, and every search saved, has its years and prices in range and in order. */
  lemma {:induction false} SavedSearchesAcceptable(c: Config, turns: seq<Turn>)
    requires forall k :: 0 <= k < |turns| ==> turns[k].Locked? && turns[k].env.loads
    ensures Sane(After(c, turns))
    ensures After(c, turns).step == Confirm ==> Acceptable(After(c, turns).data)
  {
    if turns != [] {
      var front, t := turns[..|turns| - 1], turns[|turns| - 1];
      SavedSearchesAcceptable(c, front);
      HarmlessUnderLock(c, After(c, front), t.input, t.env);
      PlayedExactly(c, After(c, front), t);
    }
  }

  /* ---- one bad turn ends in a bad search ---- */

  // Everything works.
  const FINE := Env(0, 2024, true, true, true, true, true, true, false)

  lemma Extend(c: Config, turns: seq<Turn>, t: Turn)
    ensures After(c, turns + [t]) == Played(c, After(c, turns), t)
  {
    assert (turns + [t])[..|turns|] == turns;
  }

  lemma {:induction false} NoCommas(s: string)
    requires ',' !in s
    ensures WithoutCommas(s) == s
  {
    if s != [] {
      NoCommas(s[1..]);
    }
  }

  lemma SomeNumber(n: nat) returns (s: string)
    requires n <= MOST_PRICE
    ensures Number(s) == Some(n as int) && WithoutCommas(s) == s
  {
    s := Digits(n);
    DigitsReadBack(n);
    NoCommas(s);
  }

  lemma SourceTurn(c: Config)
    ensures Played(c, START, Locked(LegacySource("yad2"), FINE)) == Session(AskManufacturer, EMPTY.(source := "yad2"), [])
  {
  }

  lemma ManufacturerTurn(c: Config, d: Data, z: string)
    requires d.manufacturer == 0 && d.model == 0 && d.updatedAt == 0 && Number(z) == Some(0)
    ensures Played(c, Session(AskManufacturer, d, []), Locked(Manufacturer(z), FINE)) == Session(AskYearMin, d, [])
  {
  }

  lemma TypedTurn(c: Config, s: Session, y: string)
    ensures Played(c, s, Locked(Typed(y), FINE)) == TypedAt(c, s, s.step, y, FINE)
  {
  }

  lemma YearMinTurn(c: Config, d: Data, y: string)
    requires d.updatedAt == 0 && Number(y) == Some(2000)
    ensures Played(c, Session(AskYearMin, d, []), Locked(Typed(y), FINE)) == Session(AskYearMax, d.(yearMin := 2000), [])
  {
    TypedTurn(c, Session(AskYearMin, d, []), y);
  }

  lemma YearMaxTurn(c: Config, d: Data, y: string)
    requires d.yearMin <= 2000 && d.updatedAt == 0 && Number(y) == Some(2000)
    ensures Played(c, Session(AskYearMax, d, []), Locked(Typed(y), FINE)) == Session(AskPriceMax, d.(yearMax := 2000), [])
  {
    TypedTurn(c, Session(AskYearMax, d, []), y);
  }

  lemma PriceMaxTurn(c: Config, d: Data, y: string)
    requires d.updatedAt == 0 && Number(y) == Some(2000) && WithoutCommas(y) == y
    ensures Played(c, Session(AskPriceMax, d, []), Locked(Typed(y), FINE)) == Session(AskPriceMin, d.(priceMax := 2000), [])
  {
    TypedTurn(c, Session(AskPriceMax, d, []), y);
  }

  // From the start to the question for the lower price.
  lemma ToPriceMin(c: Config) returns (turns: seq<Turn>)
    ensures After(c, turns) == Session(AskPriceMin,
              EMPTY.(source := "yad2", yearMin := 2000, yearMax := 2000, priceMax := 2000), [])
  {
    var z := SomeNumber(0);
    var y := SomeNumber(2000);
    var source, manufacturer, typed := Locked(LegacySource("yad2"), FINE), Locked(Manufacturer(z), FINE), Locked(Typed(y), FINE);
    var d := EMPTY.(source := "yad2");
    SourceTurn(c);
    ManufacturerTurn(c, d, z);
    YearMinTurn(c, d, y);
    YearMaxTurn(c, d.(yearMin := 2000), y);
    PriceMaxTurn(c, d.(yearMin := 2000, yearMax := 2000), y);
    Extend(c, [], source);
    turns := [] + [source];
    Extend(c, turns, manufacturer);
    turns := turns + [manufacturer];
    Extend(c, turns, typed);
    Extend(c, turns + [typed], typed);
    Extend(c, turns + [typed] + [typed], typed);
    turns := turns + [typed] + [typed] + [typed];
  }

  // The buttons from the gear box on, with an empty record.
  lemma GearBoxTurn(c: Config)
    ensures Played(c, Session(AskGearBox, EMPTY, []), Locked(GearBox("any"), FINE)) == Session(AskEngine, EMPTY, [])
  {
  }

  lemma NumberButtonTurns(c: Config, z: string)
    requires Number(z) == Some(0)
    ensures Played(c, Session(AskEngine, EMPTY, []), Locked(Engine(z), FINE)) == Session(AskMaxKm, EMPTY, [])
    ensures Played(c, Session(AskMaxKm, EMPTY, []), Locked(MaxKm(z), FINE)) == Session(AskMaxHand, EMPTY, [])
  {
  }

  lemma MaxHandTurn(c: Config, z: string)
    requires Number(z) == Some(0)
    ensures Played(c, Session(AskMaxHand, EMPTY, []), Locked(MaxHand(z), FINE)) == Session(AskKeywords, EMPTY, [])
  {
  }

  lemma WordsTurns(c: Config)
    ensures Played(c, Session(AskKeywords, EMPTY, []), Locked(SkipKeywords, FINE)) == Session(AskExcludeKeys, EMPTY, [])
    ensures Played(c, Session(AskExcludeKeys, EMPTY, []), Locked(SkipExcludeKeys, FINE)) == Session(Confirm, EMPTY, [])
  {
  }

  lemma ConfirmTurn(c: Config)
    ensures Played(c, Session(Confirm, EMPTY, []), Locked(ConfirmPressed, FINE)).saved == [SearchOf(EMPTY)]
  {
  }

  // From an empty record to a saved search.
  lemma ToSaved(c: Config, turns: seq<Turn>) returns (more: seq<Turn>)
    requires After(c, turns) == Session(AskGearBox, EMPTY, [])
    ensures After(c, more).saved == [SearchOf(EMPTY)]
  {
    var z := SomeNumber(0);
    GearBoxTurn(c);
    NumberButtonTurns(c, z);
    MaxHandTurn(c, z);
    WordsTurns(c);
    ConfirmTurn(c);
    var gear, engine, km := Locked(GearBox("any"), FINE), Locked(Engine(z), FINE), Locked(MaxKm(z), FINE);
    Extend(c, turns, gear);
    Extend(c, turns + [gear], engine);
    Extend(c, turns + [gear] + [engine], km);
    more := turns + [gear] + [engine] + [km];
    var hand, words, excluded := Locked(MaxHand(z), FINE), Locked(SkipKeywords, FINE), Locked(SkipExcludeKeys, FINE);
    Extend(c, more, hand);
    Extend(c, more + [hand], words);
    Extend(c, more + [hand] + [words], excluded);
    more := more + [hand] + [words] + [excluded];
    Extend(c, more, Locked(ConfirmPressed, FINE));
    more := more + [Locked(ConfirmPressed, FINE)];
  }

  // One failed read on the way, and a search with no years and no prices is saved.
  lemma FailedReadSaved(c: Config) returns (turns: seq<Turn>)
    ensures After(c, turns).saved == [SearchOf(EMPTY)] && !Acceptable(SearchOf(EMPTY))
  {
    turns := ToPriceMin(c);
    var bad := Locked(SkipPriceMin, FINE.(loads := false));
    Extend(c, turns, bad);
    turns := ToSaved(c, turns + [bad]);
  }

  // The same when a watch command slips in once.
  lemma OvertakenSaved(c: Config) returns (turns: seq<Turn>)
    ensures After(c, turns).saved == [SearchOf(EMPTY)] && !Acceptable(SearchOf(EMPTY))
  {
    turns := ToPriceMin(c);
    var bad := Overtaken(SkipPriceMin, FINE, WatchCommand, FINE);
    Extend(c, turns, bad);
    turns := ToSaved(c, turns + [bad]);
  }

  /* ---- how often a search is saved ---- */

  // Whether the chat came to the confirmation, and whether a search was saved but the chat stayed there.
  predicate Entered(s: Session, t: Session) {
    s.step != Confirm && t.step == Confirm
  }

  predicate Stuck(s: Session, t: Session) {
    |t.saved| > |s.saved| && t.step == Confirm
  }

  function CountEntered(c: Config, turns: seq<Turn>): nat {
    if turns == [] then 0
    else
      var front := turns[..|turns| - 1];
      CountEntered(c, front) + if Entered(After(c, front), After(c, turns)) then 1 else 0
  }

  function CountStuck(c: Config, turns: seq<Turn>): nat {
    if turns == [] then 0
    else
      var front := turns[..|turns| - 1];
      CountStuck(c, front) + if Stuck(After(c, front), After(c, turns)) then 1 else 0
  }

  function Waiting(s: Session): nat {
    if s.step == Confirm then 1 else 0
  }

  lemma TypedSaves(c: Config, s: Session, found: Step, text: string, env: Env)
    ensures TypedAt(c, s, found, text, env).saved == s.saved
  {
  }

  lemma PressedSaves(c: Config, s: Session, found: Step, i: Input, env: Env)
    requires LateButton(i)
    ensures HandledAt(c, s, found, i, env).saved == s.saved
  {
  }

  lemma HandledSaves(c: Config, s: Session, found: Step, i: Input, env: Env)
    ensures var t := HandledAt(c, s, found, i, env);
            && (|t.saved| == |s.saved| || (|t.saved| == |s.saved| + 1 && found == Confirm))
            && (|t.saved| > |s.saved| ==> t.step == if env.resets then Idle else s.step)
  {
    if i.Typed? {
      TypedSaves(c, s, found, i.text, env);
    } else if LateButton(i) {
      PressedSaves(c, s, found, i, env);
    }
  }

  lemma PlayedSaves(c: Config, s: Session, turn: Turn)
    ensures var t := Played(c, s, turn);
            && |t.saved| + Waiting(t) <= |s.saved| + Waiting(s)
                                         + (if Entered(s, t) then 1 else 0) + (if Stuck(s, t) then 1 else 0)
            && (turn.env.resets ==> !Stuck(s, t))
  {
    HandledSaves(c, s, s.step, if turn.Overtaken? then AsInput(turn.command) else Cancel, if turn.Overtaken? then turn.between else turn.env);
    HandledSaves(c, Before(c, s, turn), s.step, turn.input, turn.env);
    assert turn.Overtaken? ==> |Before(c, s, turn).saved| == |s.saved|;
  }

  /** Each time the chat comes to the confirmation, at most one search is saved, but for those after which
      the chat could not be reset. */
  lemma {:induction false} OneSavePerConfirmation(c: Config, turns: seq<Turn>)
    ensures |After(c, turns).saved| <= CountEntered(c, turns) + CountStuck(c, turns) - Waiting(After(c, turns))
    ensures (forall k :: 0 <= k < |turns| ==> turns[k].env.resets) ==> CountStuck(c, turns) == 0
  {
    if turns != [] {
      var front := turns[..|turns| - 1];
      OneSavePerConfirmation(c, front);
      PlayedSaves(c, After(c, front), turns[|turns| - 1]);
    }
  }

  class Wizard {
    const config: Config
    var step: Step
    var data: Data
    var saved: seq<Data>

    function Value(): Session
      reads this
    {
      Session(step, data, saved)
    }

    constructor (c: Config)
      ensures config == c && Value() == START
    {
      config, step, data, saved := c, Idle, EMPTY, [];
    }

    method LoadData(env: Env) returns (d: Data)
      ensures d == Loaded(Value(), env)
    {
      d := if env.loads then data else EMPTY;
    }

    method SaveOrAbort(next: Step, d: Data, env: Env) returns (ok: bool)
      modifies this
      ensures ok == env.saves && Value() == Save(old(Value()), next, d, env)
    {
      if env.saves {
        step, data := next, d.(updatedAt := env.now);
      }
      ok := env.saves;
    }

    method ResetTo(next: Step, env: Env)
      modifies this
      ensures Value() == Reset(old(Value()), next, env)
    {
      if env.resets {
        step, data := next, EMPTY;
      }
    }

    method ExpectState(at: Step, env: Env) returns (ok: bool)
      ensures ok == (env.seesUser && step == at)
    {
      ok := env.seesUser && step == at;
    }

    method OnWatch(env: Env)
      modifies this
      ensures Value() == Handled(config, old(Value()), Watch, env)
    {
      if !env.overLimit {
        ResetTo(AskSource, env);
      }
    }

    method OnEdit(search: Data, env: Env)
      modifies this
      ensures Value() == Handled(config, old(Value()), Edit(search), env)
    {
      var _ := SaveOrAbort(AskSource, search, env);
    }

    method OnCancel(env: Env)
      modifies this
      ensures Value() == Handled(config, old(Value()), Cancel, env)
    {
      ResetTo(Idle, env);
    }

    method OnEditRestart(env: Env)
      modifies this
      ensures Value() == Handled(config, old(Value()), EditRestart, env)
    {
      var d := LoadData(env);
      var _ := SaveOrAbort(AskSource, EMPTY.(editId := d.editId), env);
    }

    method OnSourceToggle(source: string, env: Env)
      modifies this
      ensures Value() == Handled(config, old(Value()), SourceToggled(source), env)
    {
      var d := LoadData(env);
      var _ := SaveOrAbort(AskSource, d.(source := config.toggle(d.source, source)), env);
    }

    method SourceDoneLocked(env: Env)
      modifies this
      ensures Value() == SourceFinished(old(Value()), env)
    {
      var d := LoadData(env);
      if d.source != "" {
        var _ := SaveOrAbort(AskManufacturer, d, env);
      }
    }

    method OnLegacySource(source: string, env: Env)
      modifies this
      ensures Value() == Handled(config, old(Value()), LegacySource(source), env)
    {
      var d := LoadData(env);
      var ok := SaveOrAbort(AskSource, d.(source := source), env);
      if ok {
        SourceDoneLocked(env);
      }
    }

    method OnManufacturerSearch(env: Env)
      modifies this
      ensures Value() == Handled(config, old(Value()), ManufacturerSearch, env)
    {
      var d := LoadData(env);
      var _ := SaveOrAbort(SearchManufacturer, d, env);
    }

    method OnModelSearch(env: Env)
      modifies this
      ensures Value() == Handled(config, old(Value()), ModelSearch, env)
    {
      var d := LoadData(env);
      var _ := SaveOrAbort(SearchModel, d, env);
    }

    method OnManufacturerSelected(raw: string, env: Env)
      modifies this
      ensures Value() == Handled(config, old(Value()), Manufacturer(raw), env)
    {
      var ok := ExpectState(AskManufacturer, env);
      var n := Number(raw);
      if ok && n.Some? && n.value >= 0 {
        var d := LoadData(env);
        d := d.(manufacturer := n.value);
        if n.value == 0 {
          var _ := SaveOrAbort(AskYearMin, d.(model := 0), env);
        } else {
          var _ := SaveOrAbort(AskModel, d, env);
        }
      }
    }

    method OnModelSelected(raw: string, env: Env)
      modifies this
      ensures Value() == Handled(config, old(Value()), Model(raw), env)
    {
      var ok := ExpectState(AskModel, env);
      var n := Number(raw);
      if ok && n.Some? {
        var d := LoadData(env);
        var _ := SaveOrAbort(AskYearMin, d.(model := n.value), env);
      }
    }

    method OnEngineSelected(raw: string, env: Env)
      modifies this
      ensures Value() == Handled(config, old(Value()), Engine(raw), env)
    {
      var ok := ExpectState(AskEngine, env);
      var n := Number(raw);
      if ok && n.Some? {
        var d := LoadData(env);
        var _ := SaveOrAbort(AskMaxKm, d.(engineMinCC := n.value), env);
      }
    }

    method OnMaxKmSelected(raw: string, env: Env)
      modifies this
      ensures Value() == Handled(config, old(Value()), MaxKm(raw), env)
    {
      var ok := ExpectState(AskMaxKm, env);
      var n := Number(raw);
      if ok && n.Some? {
        var d := LoadData(env);
        var _ := SaveOrAbort(AskMaxHand, d.(maxKm := n.value), env);
      }
    }

    method OnMaxHandSelected(raw: string, env: Env)
      modifies this
      ensures Value() == Handled(config, old(Value()), MaxHand(raw), env)
    {
      var ok := ExpectState(AskMaxHand, env);
      var n := Number(raw);
      if ok && n.Some? {
        var d := LoadData(env);
        var _ := SaveOrAbort(AskKeywords, d.(maxHand := n.value), env);
      }
    }

    method OnSkipPriceMin(env: Env)
      modifies this
      ensures Value() == Handled(config, old(Value()), SkipPriceMin, env)
    {
      var ok := ExpectState(AskPriceMin, env);
      if ok {
        var d := LoadData(env);
        var _ := SaveOrAbort(AskGearBox, d.(priceMin := 0), env);
      }
    }

    method OnSkipKeywords(env: Env)
      modifies this
      ensures Value() == Handled(config, old(Value()), SkipKeywords, env)
    {
      var ok := ExpectState(AskKeywords, env);
      if ok {
        var d := LoadData(env);
        var _ := SaveOrAbort(AskExcludeKeys, d.(keywords := ""), env);
      }
    }

    method OnSkipExcludeKeys(env: Env)
      modifies this
      ensures Value() == Handled(config, old(Value()), SkipExcludeKeys, env)
    {
      var ok := ExpectState(AskExcludeKeys, env);
      if ok {
        var d := LoadData(env);
        var _ := SaveOrAbort(Confirm, d.(excludeKeys := ""), env);
      }
    }

    method OnGearBoxSelected(choice: string, env: Env)
      modifies this
      ensures Value() == Handled(config, old(Value()), GearBox(choice), env)
    {
      var ok := ExpectState(AskGearBox, env);
      if ok {
        var d := LoadData(env);
        var _ := SaveOrAbort(AskEngine, d.(gearBox := if choice == "any" then "" else choice), env);
      }
    }

    method HandleYearMin(text: string, env: Env)
      modifies this
      ensures Value() == YearMinTyped(old(Value()), Number(text), env)
    {
      var year := Number(text);
      if year.None? || year.value < FIRST_YEAR || year.value > env.year + 2 {
        return;
      }
      var d := LoadData(env);
      var _ := SaveOrAbort(AskYearMax, d.(yearMin := year.value), env);
    }

    method HandleYearMax(text: string, env: Env)
      modifies this
      ensures Value() == YearMaxTyped(old(Value()), Number(text), env)
    {
      var year := Number(text);
      if year.None? || year.value < FIRST_YEAR || year.value > env.year + 2 {
        return;
      }
      var d := LoadData(env);
      if year.value < d.yearMin {
        return;
      }
      var _ := SaveOrAbort(AskPriceMax, d.(yearMax := year.value), env);
    }

    method HandlePriceMax(text: string, env: Env)
      modifies this
      ensures Value() == PriceMaxTyped(old(Value()), Number(WithoutCommas(text)), env)
    {
      var price := Number(WithoutCommas(text));
      if price.None? || price.value < LEAST_PRICE || price.value > MOST_PRICE {
        return;
      }
      var d := LoadData(env);
      var _ := SaveOrAbort(AskPriceMin, d.(priceMax := price.value), env);
    }

    method HandlePriceMin(text: string, env: Env)
      modifies this
      ensures Value() == PriceMinTyped(old(Value()), config.isSkip(text) || text == "0", Number(WithoutCommas(text)), env)
    {
      var d := LoadData(env);
      if config.isSkip(text) || text == "0" {
        d := d.(priceMin := 0);
      } else {
        var price := Number(WithoutCommas(text));
        if price.None? || price.value < 0 || price.value > MOST_PRICE {
          return;
        }
        if d.priceMax > 0 && price.value > d.priceMax {
          return;
        }
        d := d.(priceMin := price.value);
      }
      var _ := SaveOrAbort(AskGearBox, d, env);
    }

    method HandleKeywords(text: string, env: Env)
      modifies this
      ensures Value() == (var words := WordsTyped(config, text);
                          if words.None? then old(Value())
                          else Save(old(Value()), AskExcludeKeys, Loaded(old(Value()), env).(keywords := words.value), env))
    {
      var d := LoadData(env);
      if config.isSkip(text) {
        d := d.(keywords := "");
      } else {
        if config.runes(text) > MAX_KEYWORDS {
          return;
        }
        d := d.(keywords := config.normalize(text));
      }
      var _ := SaveOrAbort(AskExcludeKeys, d, env);
    }

    method HandleExcludeKeys(text: string, env: Env)
      modifies this
      ensures Value() == (var words := WordsTyped(config, text);
                          if words.None? then old(Value())
                          else Save(old(Value()), Confirm, Loaded(old(Value()), env).(excludeKeys := words.value), env))
    {
      var d := LoadData(env);
      if config.isSkip(text) {
        d := d.(excludeKeys := "");
      } else {
        if config.runes(text) > MAX_KEYWORDS {
          return;
        }
        d := d.(excludeKeys := config.normalize(text));
      }
      var _ := SaveOrAbort(Confirm, d, env);
    }

    method HandleDefault(text: string, env: Env)
      modifies this
      ensures Value() == TypedAt(config, old(Value()), old(step), text, env)
    {
      if !env.seesUser {
        return;
      }
      if step != Idle {
        var updatedAt := if env.seesAge then data.updatedAt else 0;
        if updatedAt > 0 && env.now - updatedAt > TIMEOUT {
          ResetTo(Idle, env);
          return;
        }
      }
      match step {
        case SearchManufacturer =>
          var d := LoadData(env);
          var _ := SaveOrAbort(AskManufacturer, d, env);
        case SearchModel =>
          var d := LoadData(env);
          var _ := SaveOrAbort(AskModel, d, env);
        case AskYearMin => HandleYearMin(text, env);
        case AskYearMax => HandleYearMax(text, env);
        case AskPriceMax => HandlePriceMax(text, env);
        case AskPriceMin => HandlePriceMin(text, env);
        case AskKeywords => HandleKeywords(text, env);
        case AskExcludeKeys => HandleExcludeKeys(text, env);
        case _ =>
      }
    }

    method OnConfirm(env: Env)
      modifies this
      ensures Value() == Handled(config, old(Value()), ConfirmPressed, env)
    {
      if !env.seesUser || step != Confirm {
        return;
      }
      var d := LoadData(env);
      if d.editId <= 0 && env.overLimit {
        return;
      }
      if !env.stores {
        return;
      }
      saved := saved + [SearchOf(d)];
      ResetTo(Idle, env);
    }

    /** One input, handled under the chat's lock. */
    method Handle(i: Input, env: Env)
      modifies this
      ensures Value() == Handled(config, old(Value()), i, env)
    {
      match i {
        case Watch => OnWatch(env);
        case Edit(search) => OnEdit(search, env);
        case Cancel => OnCancel(env);
        case EditRestart => OnEditRestart(env);
        case SourceToggled(source) => OnSourceToggle(source, env);
        case LegacySource(source) => OnLegacySource(source, env);
        case SourceDone => SourceDoneLocked(env);
        case ManufacturerSearch => OnManufacturerSearch(env);
        case ModelSearch => OnModelSearch(env);
        case Manufacturer(raw) => OnManufacturerSelected(raw, env);
        case Model(raw) => OnModelSelected(raw, env);
        case SkipPriceMin => OnSkipPriceMin(env);
        case GearBox(choice) => OnGearBoxSelected(choice, env);
        case Engine(raw) => OnEngineSelected(raw, env);
        case MaxKm(raw) => OnMaxKmSelected(raw, env);
        case MaxHand(raw) => OnMaxHandSelected(raw, env);
        case SkipKeywords => OnSkipKeywords(env);
        case SkipExcludeKeys => OnSkipExcludeKeys(env);
        case Typed(text) => HandleDefault(text, env);
        case ConfirmPressed => OnConfirm(env);
      }
    }
  }
}
