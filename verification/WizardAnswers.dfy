/**
  What the wizard's data is made of: the value of each field is the last answer accepted for it since the
  data was last emptied or taken from a stored search.
 */
module WizardAnswers {
  import opened Wizard
  import opened Wrappers

  datatype Field =
    | SourceField | ManufacturerField | ModelField | YearMinField | YearMaxField | PriceMaxField | PriceMinField
    | GearBoxField | EngineField | MaxKmField | MaxHandField | KeywordsField | ExcludeField | EditIdField

  datatype Value = Num(n: int) | Words(s: string)

  datatype Answer = Answer(field: Field, value: Value)

  function FieldOf(d: Data, f: Field): Value {
    match f
    case SourceField => Words(d.source)
    case ManufacturerField => Num(d.manufacturer)
    case ModelField => Num(d.model)
    case YearMinField => Num(d.yearMin)
    case YearMaxField => Num(d.yearMax)
    case PriceMaxField => Num(d.priceMax)
    case PriceMinField => Num(d.priceMin)
    case GearBoxField => Words(d.gearBox)
    case EngineField => Num(d.engineMinCC)
    case MaxKmField => Num(d.maxKm)
    case MaxHandField => Num(d.maxHand)
    case KeywordsField => Words(d.keywords)
    case ExcludeField => Words(d.excludeKeys)
    case EditIdField => Num(d.editId)
  }

  /* ---- what an input does to the data ---- */

  // Nothing; it starts over from a record; it answers a question; or it writes back what was read.
  datatype Effect = Nothing | StartsFrom(data: Data) | Answers(answer: Answer) | Rewrites

  // The handler found the chat at the step, and may write.
  predicate At(found: Step, env: Env, at: Step) {
    env.seesUser && env.saves && found == at
  }

  // A number in its bounds answers the question for the field, and so do words of an allowed length.
  function NumberFor(f: Field, n: Option<int>, lo: int, hi: int): Effect {
    if NumberIn(n, lo, hi) then Answers(Answer(f, Num(n.value))) else Nothing
  }

  function WordsFor(f: Field, words: Option<string>): Effect {
    if words.Some? then Answers(Answer(f, Words(words.value))) else Nothing
  }

  // A button for a number, at its step.
  function ButtonFor(f: Field, found: Step, env: Env, at: Step, raw: string): Effect {
    if At(found, env, at) && Number(raw).Some? then Answers(Answer(f, Num(Number(raw).value))) else Nothing
  }

  function WordButtonFor(f: Field, found: Step, env: Env, at: Step, words: string): Effect {
    if At(found, env, at) then Answers(Answer(f, Words(words))) else Nothing
  }

  function TypedFor(c: Config, d: Data, at: Step, text: string, env: Env): Effect {
    match at
    case SearchManufacturer => Rewrites
    case SearchModel => Rewrites
    case AskYearMin => NumberFor(YearMinField, Number(text), 1990, env.year + 2)
    case AskYearMax => NumberFor(YearMaxField, Number(text), if d.yearMin > 1990 then d.yearMin else 1990, env.year + 2)
    case AskPriceMax => NumberFor(PriceMaxField, Number(WithoutCommas(text)), 1000, 10_000_000)
    case AskPriceMin =>
      if c.isSkip(text) || text == "0" then Answers(Answer(PriceMinField, Num(0)))
      else NumberFor(PriceMinField, Number(WithoutCommas(text)), 0, if 0 < d.priceMax < 10_000_000 then d.priceMax else 10_000_000)
    case AskKeywords => WordsFor(KeywordsField, WordsTyped(c, text))
    case AskExcludeKeys => WordsFor(ExcludeField, WordsTyped(c, text))
    case _ => Nothing
  }

  function ManufacturerFor(found: Step, env: Env, raw: string): Effect {
    if Number(raw).Some? && Number(raw).value < 0 then Nothing
    else ButtonFor(ManufacturerField, found, env, AskManufacturer, raw)
  }

  // Half an hour without an input, as far as the handler can tell.
  predicate Abandoned(d: Data, env: Env) {
    env.seesAge && d.updatedAt > 0 && env.now > d.updatedAt + 1800
  }

  predicate Stored(s: Session, found: Step, env: Env) {
    env.seesUser && found == Confirm && env.stores && (Loaded(s, env).editId > 0 || !env.overLimit)
  }

  // An answer counts at the step that asks for it, the choice of a source at any step. The data starts over on a
  // watch or cancel, after the chat was left alone for too long, and once the search is stored.
  function EffectOf(c: Config, s: Session, found: Step, i: Input, env: Env): Effect {
    match i
    case Watch => if env.resets && !env.overLimit then StartsFrom(EMPTY) else Nothing
    case Cancel => if env.resets then StartsFrom(EMPTY) else Nothing
    case Edit(d) => if env.saves then StartsFrom(d) else Nothing
    case EditRestart => if env.saves then StartsFrom(EMPTY.(editId := Loaded(s, env).editId)) else Nothing
    case SourceToggled(source) =>
      if env.saves then Answers(Answer(SourceField, Words(c.toggle(Loaded(s, env).source, source)))) else Nothing
    case LegacySource(source) => if env.saves then Answers(Answer(SourceField, Words(source))) else Nothing
    case SourceDone => if env.saves && Loaded(s, env).source != "" then Rewrites else Nothing
    case ManufacturerSearch => if env.saves then Rewrites else Nothing
    case ModelSearch => if env.saves then Rewrites else Nothing
    case Manufacturer(raw) => ManufacturerFor(found, env, raw)
    case Model(raw) => ButtonFor(ModelField, found, env, AskModel, raw)
    case SkipPriceMin => if At(found, env, AskPriceMin) then Answers(Answer(PriceMinField, Num(0))) else Nothing
    case GearBox(choice) => WordButtonFor(GearBoxField, found, env, AskGearBox, if choice == "any" then "" else choice)
    case Engine(raw) => ButtonFor(EngineField, found, env, AskEngine, raw)
    case MaxKm(raw) => ButtonFor(MaxKmField, found, env, AskMaxKm, raw)
    case MaxHand(raw) => ButtonFor(MaxHandField, found, env, AskMaxHand, raw)
    case SkipKeywords => WordButtonFor(KeywordsField, found, env, AskKeywords, "")
    case SkipExcludeKeys => WordButtonFor(ExcludeField, found, env, AskExcludeKeys, "")
    case Typed(text) =>
      if !env.seesUser then Nothing
      else if found != Idle && Abandoned(s.data, env) then if env.resets then StartsFrom(EMPTY) else Nothing
      else if env.saves then TypedFor(c, Loaded(s, env), found, text, env)
      else Nothing
    case ConfirmPressed => if Stored(s, found, env) && env.resets then StartsFrom(EMPTY) else Nothing
  }

  // What a field holds afterwards if it held `was` before. Any manufacturer, which is 0, means any model too; a
  // failed read leaves nothing of the other fields.
  function FieldAfter(e: Effect, loads: bool, f: Field, was: Value): Value {
    match e
    case Nothing => was
    case StartsFrom(d) => FieldOf(d, f)
    case Rewrites => if loads then was else FieldOf(EMPTY, f)
    case Answers(a) =>
      if a.field == f then a.value
      else if f.ModelField? && a == Answer(ManufacturerField, Num(0)) then Num(0)
      else if loads then was else FieldOf(EMPTY, f)
  }

  /* ---- and that it does ---- */

  predicate WellFormed(a: Answer) {
    a.value.Words? <==> a.field in {SourceField, GearBoxField, KeywordsField, ExcludeField}
  }

  function Put(d: Data, a: Answer): Data
    requires WellFormed(a)
  {
    match a.field
    case SourceField => d.(source := a.value.s)
    case ManufacturerField => if a.value.n == 0 then d.(manufacturer := 0, model := 0) else d.(manufacturer := a.value.n)
    case ModelField => d.(model := a.value.n)
    case YearMinField => d.(yearMin := a.value.n)
    case YearMaxField => d.(yearMax := a.value.n)
    case PriceMaxField => d.(priceMax := a.value.n)
    case PriceMinField => d.(priceMin := a.value.n)
    case GearBoxField => d.(gearBox := a.value.s)
    case EngineField => d.(engineMinCC := a.value.n)
    case MaxKmField => d.(maxKm := a.value.n)
    case MaxHandField => d.(maxHand := a.value.n)
    case KeywordsField => d.(keywords := a.value.s)
    case ExcludeField => d.(excludeKeys := a.value.s)
    case EditIdField => d.(editId := a.value.n)
  }

  lemma PutChangesOne(d: Data, a: Answer, f: Field)
    requires WellFormed(a)
    ensures FieldOf(Put(d, a), f)
            == if a.field == f then a.value
               else if f.ModelField? && a == Answer(ManufacturerField, Num(0)) then Num(0) else FieldOf(d, f)
  {
  }

  function DataAfter(e: Effect, s: Session, env: Env): Data
    requires e.Answers? ==> WellFormed(e.answer)
  {
    match e
    case Nothing => s.data
    case StartsFrom(d) => d
    case Rewrites => Loaded(s, env)
    case Answers(a) => Put(Loaded(s, env), a)
  }

  lemma FieldOfDataAfter(e: Effect, s: Session, env: Env, f: Field)
    requires e.Answers? ==> WellFormed(e.answer)
    ensures FieldOf(DataAfter(e, s, env), f) == FieldAfter(e, env.loads, f, FieldOf(s.data, f))
  {
    if e.Answers? {
      PutChangesOne(Loaded(s, env), e.answer, f);
    }
  }

  // d and e differ at most in the time of the last change.
  predicate SameButTime(d: Data, e: Data) {
    d.(updatedAt := 0) == e.(updatedAt := 0)
  }

  lemma SameFields(d: Data, e: Data, f: Field)
    requires SameButTime(d, e)
    ensures FieldOf(d, f) == FieldOf(e, f)
  {
  }

  ghost predicate Does(c: Config, s: Session, found: Step, i: Input, env: Env) {
    var e := EffectOf(c, s, found, i, env);
    (e.Answers? ==> WellFormed(e.answer)) && SameButTime(HandledAt(c, s, found, i, env).data, DataAfter(e, s, env))
  }

  lemma EngineDoes(c: Config, s: Session, found: Step, i: Input, env: Env)
    requires i.Engine? || i.GearBox?
    ensures Does(c, s, found, i, env)
  {
  }

  lemma MaxKmDoes(c: Config, s: Session, found: Step, i: Input, env: Env)
    requires i.MaxKm?
    ensures Does(c, s, found, i, env)
  {
  }

  lemma MaxHandDoes(c: Config, s: Session, found: Step, i: Input, env: Env)
    requires i.MaxHand?
    ensures Does(c, s, found, i, env)
  {
  }

  lemma SkipDoes(c: Config, s: Session, found: Step, i: Input, env: Env)
    requires i.SkipKeywords? || i.SkipExcludeKeys?
    ensures Does(c, s, found, i, env)
  {
  }

  lemma SkipPriceDoes(c: Config, s: Session, found: Step, i: Input, env: Env)
    requires i.SkipPriceMin?
    ensures Does(c, s, found, i, env)
  {
  }

  lemma EarlyButtonDoes(c: Config, s: Session, found: Step, i: Input, env: Env)
    requires i.Manufacturer? || i.Model?
    ensures Does(c, s, found, i, env)
  {
  }

  lemma SourceDoes(c: Config, s: Session, found: Step, i: Input, env: Env)
    requires i.SourceToggled? || i.LegacySource? || i.SourceDone?
    ensures Does(c, s, found, i, env)
  {
  }

  lemma YearDoes(c: Config, s: Session, found: Step, i: Input, env: Env)
    requires i.Typed? && (found.AskYearMin? || found.AskYearMax?)
    ensures Does(c, s, found, i, env)
  {
  }

  lemma PriceMinDoes(c: Config, s: Session, found: Step, i: Input, env: Env)
    requires i.Typed? && found.AskPriceMin?
    ensures Does(c, s, found, i, env)
  {
  }

  lemma PriceMaxDoes(c: Config, s: Session, found: Step, i: Input, env: Env)
    requires i.Typed? && found.AskPriceMax?
    ensures Does(c, s, found, i, env)
  {
  }

  lemma WordsDoes(c: Config, s: Session, found: Step, i: Input, env: Env)
    requires i.Typed? && (found.AskKeywords? || found.AskExcludeKeys?)
    ensures Does(c, s, found, i, env)
  {
  }

  lemma OtherTextDoes(c: Config, s: Session, found: Step, i: Input, env: Env)
    requires i.Typed? && !AsksForText(found)
    ensures Does(c, s, found, i, env)
  {
  }

  predicate AsksForText(at: Step) {
    at in {AskYearMin, AskYearMax, AskPriceMin, AskPriceMax, AskKeywords, AskExcludeKeys}
  }

  lemma TypedDoes(c: Config, s: Session, found: Step, i: Input, env: Env)
    requires i.Typed?
    ensures Does(c, s, found, i, env)
  {
    match found {
      case AskYearMin => YearDoes(c, s, found, i, env);
      case AskYearMax => YearDoes(c, s, found, i, env);
      case AskPriceMin => PriceMinDoes(c, s, found, i, env);
      case AskPriceMax => PriceMaxDoes(c, s, found, i, env);
      case AskKeywords => WordsDoes(c, s, found, i, env);
      case AskExcludeKeys => WordsDoes(c, s, found, i, env);
      case _ => OtherTextDoes(c, s, found, i, env);
    }
  }

  lemma RestartDoes(c: Config, s: Session, found: Step, i: Input, env: Env)
    requires i.Watch? || i.Edit? || i.Cancel? || i.EditRestart? || i.ConfirmPressed? || i.ManufacturerSearch? || i.ModelSearch?
    ensures Does(c, s, found, i, env)
  {
  }

  /** Whatever is found, read or fails: each field afterwards is what the input makes of it. An answer changes its own
      field only. */
  lemma InputHolds(c: Config, s: Session, found: Step, i: Input, env: Env, f: Field)
    ensures FieldOf(HandledAt(c, s, found, i, env).data, f)
            == FieldAfter(EffectOf(c, s, found, i, env), env.loads, f, FieldOf(s.data, f))
  {
    InputDoes(c, s, found, i, env);
    var e := EffectOf(c, s, found, i, env);
    SameFields(HandledAt(c, s, found, i, env).data, DataAfter(e, s, env), f);
    FieldOfDataAfter(e, s, env, f);
  }

  lemma InputDoes(c: Config, s: Session, found: Step, i: Input, env: Env)
    ensures Does(c, s, found, i, env)
  {
    match i {
      case Engine(_) => EngineDoes(c, s, found, i, env);
      case MaxKm(_) => MaxKmDoes(c, s, found, i, env);
      case MaxHand(_) => MaxHandDoes(c, s, found, i, env);
      case SkipKeywords => SkipDoes(c, s, found, i, env);
      case SkipExcludeKeys => SkipDoes(c, s, found, i, env);
      case SkipPriceMin => SkipPriceDoes(c, s, found, i, env);
      case GearBox(_) => EngineDoes(c, s, found, i, env);
      case Manufacturer(_) => EarlyButtonDoes(c, s, found, i, env);
      case Model(_) => EarlyButtonDoes(c, s, found, i, env);
      case SourceToggled(_) => SourceDoes(c, s, found, i, env);
      case LegacySource(_) => SourceDoes(c, s, found, i, env);
      case SourceDone => SourceDoes(c, s, found, i, env);
      case Typed(_) => TypedDoes(c, s, found, i, env);
      case _ => RestartDoes(c, s, found, i, env);
    }
  }

  /* ---- over runs ---- */

  // What the field holds when the handler of the last turn reads the data: an unlocked command may have come first.
  function HeldBefore(c: Config, front: seq<Turn>, t: Turn, f: Field): Value
    decreases |front|, 1
  {
    var s, was := After(c, front), LastAnswer(c, front, f);
    if t.Locked? then was
    else FieldAfter(EffectOf(c, s, s.step, AsInput(t.command), t.between), t.between.loads, f, was)
  }

  // The field's last answer, or what the data last started from.
  function LastAnswer(c: Config, turns: seq<Turn>, f: Field): Value
    decreases |turns|, 0
  {
    if turns == [] then FieldOf(EMPTY, f)
    else
      var front, t := turns[..|turns| - 1], turns[|turns| - 1];
      var s := After(c, front);
      FieldAfter(EffectOf(c, Before(c, s, t), s.step, t.input, t.env), t.env.loads, f, HeldBefore(c, front, t, f))
  }

  lemma BeforeHolds(c: Config, front: seq<Turn>, t: Turn, f: Field)
    requires FieldOf(After(c, front).data, f) == LastAnswer(c, front, f)
    ensures FieldOf(Before(c, After(c, front), t).data, f) == HeldBefore(c, front, t, f)
  {
    var s := After(c, front);
    if t.Overtaken? {
      InputHolds(c, s, s.step, AsInput(t.command), t.between, f);
    }
  }

  /** Over every run, with any failures and any overtaking, each field of the data holds its last answer. */
  lemma {:induction false} DataIsLastAnswers(c: Config, turns: seq<Turn>, f: Field)
    ensures FieldOf(After(c, turns).data, f) == LastAnswer(c, turns, f)
  {
    if turns != [] {
      var front, t := turns[..|turns| - 1], turns[|turns| - 1];
      var s := After(c, front);
      DataIsLastAnswers(c, front, f);
      BeforeHolds(c, front, t, f);
      InputHolds(c, Before(c, s, t), s.step, t.input, t.env, f);
    }
  }

  // A search stored without a source gets the default one.
  function StoredAs(f: Field, v: Value): Value {
    if f.SourceField? && v == Words("") then Words("yad2") else v
  }

  /** A turn saves at most one search, on a press of confirm, and each field of it is the last answer; nothing is
      left of it if the read failed. */
  lemma SavedIsLastAnswers(c: Config, front: seq<Turn>, t: Turn, f: Field)
    ensures var s := After(c, front);
            var u := Played(c, s, t);
            u.saved == s.saved
            || (&& t.input == ConfirmPressed && |u.saved| == |s.saved| + 1 && u.saved[..|s.saved|] == s.saved
                && FieldOf(u.saved[|s.saved|], f)
                   == StoredAs(f, if t.env.loads then HeldBefore(c, front, t, f) else FieldOf(EMPTY, f)))
  {
    var s := After(c, front);
    var v := Before(c, s, t);
    DataIsLastAnswers(c, front, f);
    BeforeHolds(c, front, t, f);
    if t.Overtaken? {
      OnlyConfirmSaves(c, s, s.step, AsInput(t.command), t.between);
    }
    OnlyConfirmSaves(c, v, s.step, t.input, t.env);
    if Played(c, s, t).saved != s.saved {
      StoredField(Loaded(v, t.env), f);
    }
  }

  lemma StoredField(d: Data, f: Field)
    ensures FieldOf(SearchOf(d), f) == StoredAs(f, FieldOf(d, f))
  {
  }

  lemma OnlyConfirmSaves(c: Config, s: Session, found: Step, i: Input, env: Env)
    ensures HandledAt(c, s, found, i, env).saved
            == if i.ConfirmPressed? && Stored(s, found, env) then s.saved + [SearchOf(Loaded(s, env))] else s.saved
  {
    HandledSaves(c, s, found, i, env);
    if i.Typed? {
      TypedSaves(c, s, found, i.text, env);
    } else if LateButton(i) {
      PressedSaves(c, s, found, i, env);
    }
  }

  // The input leaves the field alone.
  predicate Leaves(e: Effect, loads: bool, f: Field) {
    match e
    case Nothing => true
    case StartsFrom(_) => false
    case Rewrites => loads
    case Answers(a) => loads && a.field != f && !(f.ModelField? && a == Answer(ManufacturerField, Num(0)))
  }

  predicate TurnLeaves(c: Config, s: Session, t: Turn, f: Field) {
    && (t.Overtaken? ==> Leaves(EffectOf(c, s, s.step, AsInput(t.command), t.between), t.between.loads, f))
    && Leaves(EffectOf(c, Before(c, s, t), s.step, t.input, t.env), t.env.loads, f)
  }

  ghost predicate AllLeave(c: Config, turns: seq<Turn>, rest: seq<Turn>, f: Field) {
    rest == [] ||
    (AllLeave(c, turns, rest[..|rest| - 1], f) && TurnLeaves(c, After(c, turns + rest[..|rest| - 1]), rest[|rest| - 1], f))
  }

  /** Once a question is answered the answer stays for as long as no turn answers it again, starts over or reads
      nothing. */
  lemma AnswerStays(c: Config, turns: seq<Turn>, t: Turn, rest: seq<Turn>, a: Answer)
    requires var s := After(c, turns);
             EffectOf(c, Before(c, s, t), s.step, t.input, t.env) == Answers(a)
    requires AllLeave(c, turns + [t], rest, a.field)
    ensures FieldOf(After(c, turns + [t] + rest).data, a.field) == a.value
  {
    var s := After(c, turns);
    Extend(c, turns, t);
    InputHolds(c, Before(c, s, t), s.step, t.input, t.env, a.field);
    AllLeftAlone(c, turns + [t], rest, a.field);
  }

  lemma {:induction false} AllLeftAlone(c: Config, turns: seq<Turn>, rest: seq<Turn>, f: Field)
    requires AllLeave(c, turns, rest, f)
    ensures FieldOf(After(c, turns + rest).data, f) == FieldOf(After(c, turns).data, f)
  {
    if rest == [] {
      assert turns + [] == turns;
    } else {
      var n := |rest| - 1;
      AllLeftAlone(c, turns, rest[..n], f);
      LastApart(turns, rest);
      LeftAlone(c, turns + rest[..n], rest[n], f);
    }
  }

  lemma LastApart<T>(xs: seq<T>, ys: seq<T>)
    requires ys != []
    ensures xs + ys == xs + ys[..|ys| - 1] + [ys[|ys| - 1]]
  {
  }

  lemma LeftAlone(c: Config, turns: seq<Turn>, t: Turn, f: Field)
    requires TurnLeaves(c, After(c, turns), t, f)
    ensures FieldOf(After(c, turns + [t]).data, f) == FieldOf(After(c, turns).data, f)
  {
    var s := After(c, turns);
    Extend(c, turns, t);
    if t.Overtaken? {
      InputHolds(c, s, s.step, AsInput(t.command), t.between, f);
    }
    InputHolds(c, Before(c, s, t), s.step, t.input, t.env, f);
  }

  /* ---- one pass through all questions ---- */

  predicate Works(e: Env) {
    e.seesUser && e.loads && e.saves && e.resets && e.stores && !e.overLimit
  }

  // Values a search may have.
  predicate Ordinary(v: Data, e: Env) {
    && v.source != "" && v.manufacturer > 0 && v.editId == 0
    && 1990 <= v.yearMin <= v.yearMax <= e.year + 2
    && 1000 <= v.priceMax <= 10_000_000 && 0 <= v.priceMin <= v.priceMax
  }

  // The input gives the search's value for question k, in the order of the questions.
  predicate Gives(c: Config, v: Data, i: Input, k: nat) {
    if k == 0 then i == LegacySource(v.source)
    else if k == 1 then i.Manufacturer? && Number(i.raw) == Some(v.manufacturer)
    else if k == 2 then i.Model? && Number(i.raw) == Some(v.model)
    else if k == 3 then i.Typed? && Number(i.text) == Some(v.yearMin)
    else if k == 4 then i.Typed? && Number(i.text) == Some(v.yearMax)
    else if k == 5 then i.Typed? && Number(WithoutCommas(i.text)) == Some(v.priceMax)
    else if k == 6 then
      i.Typed? && if c.isSkip(i.text) || i.text == "0" then v.priceMin == 0 else Number(WithoutCommas(i.text)) == Some(v.priceMin)
    else if k == 7 then i.GearBox? && v.gearBox == if i.choice == "any" then "" else i.choice
    else if k == 8 then i.Engine? && Number(i.raw) == Some(v.engineMinCC)
    else if k == 9 then i.MaxKm? && Number(i.raw) == Some(v.maxKm)
    else if k == 10 then i.MaxHand? && Number(i.raw) == Some(v.maxHand)
    else if k == 11 then
      i.Typed? && if c.isSkip(i.text) then v.keywords == "" else c.runes(i.text) <= 500 && v.keywords == c.normalize(i.text)
    else if k == 12 then
      i.Typed? && if c.isSkip(i.text) then v.excludeKeys == "" else c.runes(i.text) <= 500 && v.excludeKeys == c.normalize(i.text)
    else i.ConfirmPressed?
  }

  ghost predicate GivesAll(c: Config, v: Data, inputs: seq<Input>) {
    |inputs| == 14 && forall k :: 0 <= k < 14 ==> Gives(c, v, inputs[k], k)
  }

  function AllLocked(inputs: seq<Input>, e: Env): (turns: seq<Turn>)
    ensures |turns| == |inputs| && forall k :: 0 <= k < |inputs| ==> turns[k] == Locked(inputs[k], e)
  {
    seq(|inputs|, k requires 0 <= k < |inputs| => Locked(inputs[k], e))
  }

  // The step reached and the data filled in after k answers.
  function StepAt(k: nat): Step {
    if k == 1 then AskManufacturer
    else if k == 2 then AskModel
    else if k == 3 then AskYearMin
    else if k == 4 then AskYearMax
    else if k == 5 then AskPriceMax
    else if k == 6 then AskPriceMin
    else if k == 7 then AskGearBox
    else if k == 8 then AskEngine
    else if k == 9 then AskMaxKm
    else if k == 10 then AskMaxHand
    else if k == 11 then AskKeywords
    else if k == 12 then AskExcludeKeys
    else Confirm
  }

  function Filled(v: Data, k: nat, now: int): Data {
    Data(v.source, if k > 1 then v.manufacturer else 0, if k > 2 then v.model else 0,
         if k > 3 then v.yearMin else 0, if k > 4 then v.yearMax else 0,
         if k > 6 then v.priceMin else 0, if k > 5 then v.priceMax else 0,
         if k > 7 then v.gearBox else "", if k > 8 then v.engineMinCC else 0,
         if k > 9 then v.maxKm else 0, if k > 10 then v.maxHand else 0,
         if k > 11 then v.keywords else "", if k > 12 then v.excludeKeys else "",
         0, now)
  }

  function Reached(v: Data, k: nat, now: int): Session {
    Session(StepAt(k), Filled(v, k, now), [])
  }

  lemma ManufacturerNext(c: Config, v: Data, i: Input, e: Env)
    requires Ordinary(v, e) && Works(e) && Gives(c, v, i, 1)
    ensures Handled(c, Reached(v, 1, e.now), i, e) == Reached(v, 2, e.now)
  {
  }

  lemma ModelNext(c: Config, v: Data, i: Input, e: Env)
    requires Ordinary(v, e) && Works(e) && Gives(c, v, i, 2)
    ensures Handled(c, Reached(v, 2, e.now), i, e) == Reached(v, 3, e.now)
  {
  }

  lemma YearMinNext(c: Config, v: Data, i: Input, e: Env)
    requires Ordinary(v, e) && Works(e) && Gives(c, v, i, 3)
    ensures Handled(c, Reached(v, 3, e.now), i, e) == Reached(v, 4, e.now)
  {
  }

  lemma YearMaxNext(c: Config, v: Data, i: Input, e: Env)
    requires Ordinary(v, e) && Works(e) && Gives(c, v, i, 4)
    ensures Handled(c, Reached(v, 4, e.now), i, e) == Reached(v, 5, e.now)
  {
  }

  lemma PriceMaxNext(c: Config, v: Data, i: Input, e: Env)
    requires Ordinary(v, e) && Works(e) && Gives(c, v, i, 5)
    ensures Handled(c, Reached(v, 5, e.now), i, e) == Reached(v, 6, e.now)
  {
  }

  lemma PriceMinNext(c: Config, v: Data, i: Input, e: Env)
    requires Ordinary(v, e) && Works(e) && Gives(c, v, i, 6)
    ensures Handled(c, Reached(v, 6, e.now), i, e) == Reached(v, 7, e.now)
  {
  }

  lemma GearBoxNext(c: Config, v: Data, i: Input, e: Env)
    requires Ordinary(v, e) && Works(e) && Gives(c, v, i, 7)
    ensures Handled(c, Reached(v, 7, e.now), i, e) == Reached(v, 8, e.now)
  {
  }

  lemma EngineNext(c: Config, v: Data, i: Input, e: Env)
    requires Ordinary(v, e) && Works(e) && Gives(c, v, i, 8)
    ensures Handled(c, Reached(v, 8, e.now), i, e) == Reached(v, 9, e.now)
  {
  }

  lemma MaxKmNext(c: Config, v: Data, i: Input, e: Env)
    requires Ordinary(v, e) && Works(e) && Gives(c, v, i, 9)
    ensures Handled(c, Reached(v, 9, e.now), i, e) == Reached(v, 10, e.now)
  {
  }

  lemma MaxHandNext(c: Config, v: Data, i: Input, e: Env)
    requires Ordinary(v, e) && Works(e) && Gives(c, v, i, 10)
    ensures Handled(c, Reached(v, 10, e.now), i, e) == Reached(v, 11, e.now)
  {
  }

  lemma KeywordsNext(c: Config, v: Data, i: Input, e: Env)
    requires Ordinary(v, e) && Works(e) && Gives(c, v, i, 11)
    ensures Handled(c, Reached(v, 11, e.now), i, e) == Reached(v, 12, e.now)
  {
  }

  lemma ExcludeNext(c: Config, v: Data, i: Input, e: Env)
    requires Ordinary(v, e) && Works(e) && Gives(c, v, i, 12)
    ensures Handled(c, Reached(v, 12, e.now), i, e) == Reached(v, 13, e.now)
  {
  }

  lemma SourceNext(c: Config, v: Data, i: Input, e: Env)
    requires Ordinary(v, e) && Works(e) && Gives(c, v, i, 0)
    ensures Handled(c, START, i, e) == Reached(v, 1, e.now)
  {
  }

  lemma ConfirmNext(c: Config, v: Data, i: Input, e: Env)
    requires Ordinary(v, e) && Works(e) && Gives(c, v, i, 13)
    ensures Handled(c, Reached(v, 13, e.now), i, e) == Session(Idle, EMPTY, [v.(updatedAt := e.now)])
  {
  }

  lemma AnswerNext(c: Config, v: Data, i: Input, e: Env, k: nat)
    requires Ordinary(v, e) && Works(e) && 1 <= k < 13 && Gives(c, v, i, k)
    ensures Handled(c, Reached(v, k, e.now), i, e) == Reached(v, k + 1, e.now)
  {
    match k {
      case 1 => ManufacturerNext(c, v, i, e);
      case 2 => ModelNext(c, v, i, e);
      case 3 => YearMinNext(c, v, i, e);
      case 4 => YearMaxNext(c, v, i, e);
      case 5 => PriceMaxNext(c, v, i, e);
      case 6 => PriceMinNext(c, v, i, e);
      case 7 => GearBoxNext(c, v, i, e);
      case 8 => EngineNext(c, v, i, e);
      case 9 => MaxKmNext(c, v, i, e);
      case 10 => MaxHandNext(c, v, i, e);
      case 11 => KeywordsNext(c, v, i, e);
      case _ => ExcludeNext(c, v, i, e);
    }
  }

  lemma {:induction false} AnswersReach(c: Config, v: Data, inputs: seq<Input>, e: Env, k: nat)
    requires Ordinary(v, e) && Works(e) && GivesAll(c, v, inputs) && 1 <= k <= 13
    ensures After(c, AllLocked(inputs, e)[..k]) == Reached(v, k, e.now)
  {
    var turns := AllLocked(inputs, e);
    assert turns[..k] == turns[..k - 1] + [turns[k - 1]];
    Extend(c, turns[..k - 1], turns[k - 1]);
    if k == 1 {
      SourceNext(c, v, inputs[0], e);
    } else {
      AnswersReach(c, v, inputs, e, k - 1);
      AnswerNext(c, v, inputs[k - 1], e, k - 1);
    }
  }

  /** Every question answered once, for a search of any values: what is saved is that search, each answer in the field
      it was asked for. */
  lemma AnswersAreSaved(c: Config, v: Data, inputs: seq<Input>, e: Env)
    requires Ordinary(v, e) && Works(e) && GivesAll(c, v, inputs)
    ensures After(c, AllLocked(inputs, e)) == Session(Idle, EMPTY, [v.(updatedAt := e.now)])
  {
    var turns := AllLocked(inputs, e);
    AnswersReach(c, v, inputs, e, 13);
    assert turns == turns[..13] + [turns[13]];
    Extend(c, turns[..13], turns[13]);
    ConfirmNext(c, v, inputs[13], e);
  }
}
