/** Practice scenarios: validations, default order and scopes. */
module RolePlays {
  import opened Wrappers
  import Text
  import Ordering

  datatype Category = Category(id: nat, name: string)

  /**
   * A stored scenario. The rich-text fields hold their plain text (None when
   * the scenario has no such text); `createdAt` is its creation position.
   */
  datatype RolePlay = RolePlay(
    id: nat,
    name: string,
    description: Option<string>,
    llmInstructions: Option<string>,
    recommendedFor: Option<string>,
    durationMinutes: Option<int>,
    category: Option<Category>,
    active: bool,
    model: Option<string>,
    createdAt: nat)

  /** A raw attribute value as submitted: a Ruby Integer, a Float, or form text. */
  datatype RawNumber = IntValue(i: int) | FloatValue(r: real) | TextValue(text: string)

  /** The attributes of a scenario being saved, before type casting. */
  datatype Submission = Submission(
    name: Option<string>,
    description: Option<string>,
    llmInstructions: Option<string>,
    durationMinutes: Option<RawNumber>,
    recommendedFor: Option<string>,
    category: Option<Category>,
    active: Option<bool>)

  /** Ruby regular-expression `\d`: an ASCII digit. */
  predicate IsDigit(c: char) { '0' <= c <= '9' }

  predicate AllDigits(s: string) {
    forall i :: 0 <= i < |s| ==> IsDigit(s[i])
  }

  /** The text after an optional leading sign. */
  function Unsigned(s: string): string {
    if |s| > 0 && (s[0] == '+' || s[0] == '-') then s[1..] else s
  }

  /** `/\A[+-]?\d+\z/`: an optional sign, then one or more digits, and nothing else. */
  predicate IntegerLiteral(s: string) {
    |Unsigned(s)| > 0 && AllDigits(Unsigned(s))
  }

  /** The number a run of decimal digits denotes. */
  function DigitsValue(s: string): nat
    requires AllDigits(s)
    decreases |s|
  {
    if |s| == 0 then 0 else DigitsValue(s[..|s| - 1]) * 10 + (s[|s| - 1] as int - '0' as int)
  }

  /** The integer an integer literal denotes. */
  function LiteralValue(s: string): int
    requires IntegerLiteral(s)
  {
    if s[0] == '-' then 0 - DigitsValue(Unsigned(s)) else DigitsValue(Unsigned(s))
  }

  /**
   * `presence: true, numericality: {greater_than: 0, only_integer: true}`
   * on the value before type casting: missing fails; an Integer must be
   * above 0; a Float never passes, since its `to_s` always has a decimal
   * point; text must be an integer literal denoting a number above 0.
   */
  predicate DurationValid(d: Option<RawNumber>) {
    match d
    case None => false
    case Some(IntValue(i)) => i > 0
    case Some(FloatValue(_)) => false
    case Some(TextValue(t)) => IntegerLiteral(t) && LiteralValue(t) > 0
  }

  /** The model's validations; `otherNames` are the names already taken. */
  predicate Valid(s: Submission, otherNames: seq<string>) {
    Text.Present(s.name) && s.name.value !in otherNames
    && Text.Present(s.description)
    && Text.Present(s.llmInstructions)
    && DurationValid(s.durationMinutes)
    && Text.Present(s.recommendedFor)
    && s.category.Some?
    && s.active.Some?
  }

  /**
   * The duration cases the model's tests exercise (missing, 0, -5 and 10.5
   * fail, 10 passes), and the literal forms: a whole-number Float and the
   * text "10.0" fail, the text "10" passes and "-5" fails.
   */
  lemma DurationCases()
    ensures !DurationValid(None)
    ensures !DurationValid(Some(IntValue(0))) && !DurationValid(Some(IntValue(-5)))
    ensures !DurationValid(Some(FloatValue(10.5)))
    ensures DurationValid(Some(IntValue(10)))
    ensures !DurationValid(Some(FloatValue(10.0)))
    ensures !DurationValid(Some(TextValue("10.0"))) && !DurationValid(Some(TextValue("")))
    ensures !DurationValid(Some(TextValue("-5")))
    ensures DurationValid(Some(TextValue("10")))
  {
    assert Unsigned("10.0")[2] == '.';
    assert Unsigned("-5") == "5";
    assert DigitsValue("5") == 5 by { assert "5"[..0] == ""; }
    assert Unsigned("10") == "10";
    assert DigitsValue("10") == 10 by {
      assert "10"[..1] == "1";
      assert "1"[..0] == "";
    }
  }

  lemma DigitCharValue(d: nat)
    requires d < 10
    ensures IsDigit(Text.DigitChar(d)) && Text.DigitChar(d) as int - '0' as int == d
  {
  }

  /** Decimal rendering gives digits that read back as the number. */
  lemma {:induction false} NatToStringDigits(n: nat)
    ensures AllDigits(Text.NatToString(n)) && DigitsValue(Text.NatToString(n)) == n
    decreases n
  {
    var s := Text.NatToString(n);
    if n < 10 {
      DigitCharValue(n);
      assert s[..0] == [];
    } else {
      NatToStringDigits(n / 10);
      DigitCharValue(n % 10);
      assert s[..|s| - 1] == Text.NatToString(n / 10);
    }
  }

  /** A positive number typed as its decimal text passes, and reads back as itself. */
  lemma DecimalTextAccepted(n: nat)
    requires n > 0
    ensures IntegerLiteral(Text.NatToString(n)) && LiteralValue(Text.NatToString(n)) == n
    ensures DurationValid(Some(TextValue(Text.NatToString(n))))
  {
    NatToStringDigits(n);
    var s := Text.NatToString(n);
    assert IsDigit(s[0]);
    assert Unsigned(s) == s;
  }

  /** A name already used by another scenario is refused, and so is a missing one. */
  lemma NameRequiredAndUnique(s: Submission, otherNames: seq<string>)
    ensures s.name.None? ==> !Valid(s, otherNames)
    ensures s.name.Some? && s.name.value in otherNames ==> !Valid(s, otherNames)
  {
  }

  function CreatedAt(r: RolePlay): int { r.createdAt }

  function IsActive(r: RolePlay): bool { r.active }

  /** The default scope: oldest first. */
  function DefaultOrder(rps: seq<RolePlay>): (r: seq<RolePlay>)
    ensures Ordering.SortedBy(r, CreatedAt) && multiset(r) == multiset(rps)
  {
    Ordering.SortBy(rps, CreatedAt)
  }

  /** `active`: the active scenarios, oldest first. */
  function Active(rps: seq<RolePlay>): (r: seq<RolePlay>)
    ensures forall i :: 0 <= i < |r| ==> r[i].active && r[i] in rps
    ensures forall i :: 0 <= i < |rps| && rps[i].active ==> rps[i] in r
    ensures Ordering.SortedBy(r, CreatedAt)
    ensures multiset(r) == multiset(Ordering.Filter(rps, IsActive))
  {
    Ordering.SortThenFilter(rps, CreatedAt, IsActive);
    Ordering.Filter(DefaultOrder(rps), IsActive)
  }

  /** The argument `by_category` receives, by its Ruby class. */
  datatype CategoryArg = ACategory(c: Category) | AnInteger(i: int) | AnyOther(text: string)

  function MatchesCategory(arg: CategoryArg): RolePlay -> bool {
    (r: RolePlay) =>
      match arg
      case ACategory(c) => r.category.Some? && r.category.value.id == c.id
      case AnInteger(i) => r.category.Some? && r.category.value.id == i
      case AnyOther(t) => r.category.Some? && r.category.value.name == t
  }

  /**
   * `by_category`: a Category filters by its id, an Integer by id, anything
   * else by the category's name (the argument's `to_s`).
   */
  function ByCategory(rps: seq<RolePlay>, arg: CategoryArg): (r: seq<RolePlay>)
    ensures forall i :: 0 <= i < |r| ==> r[i] in rps && r[i].category.Some?
    ensures arg.ACategory? ==> forall i :: 0 <= i < |r| ==> r[i].category.value.id == arg.c.id
    ensures arg.AnInteger? ==> forall i :: 0 <= i < |r| ==> r[i].category.value.id == arg.i
    ensures arg.AnyOther? ==> forall i :: 0 <= i < |r| ==> r[i].category.value.name == arg.text
    ensures forall i :: 0 <= i < |rps| && MatchesCategory(arg)(rps[i]) ==> rps[i] in r
    ensures Ordering.SortedBy(r, CreatedAt)
    ensures multiset(r) == multiset(Ordering.Filter(rps, MatchesCategory(arg)))
  {
    Ordering.SortThenFilter(rps, CreatedAt, MatchesCategory(arg));
    Ordering.Filter(DefaultOrder(rps), MatchesCategory(arg))
  }
}
