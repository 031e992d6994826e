/** Expiry policy of a stored item (src/models/item.rs).

    A calendar date is an integer day number (days since a fixed epoch), so the
    chrono difference `expiry_date - today` is plain integer subtraction. The
    wall-clock read of the source becomes the explicit parameter `today`. */
module Models {

  import opened Wrappers

  /** A UUID is a 128-bit value; ids are taken as given (random generation is
      outside the model). */
  newtype Uuid = n: int | 0 <= n < 0x1_0000_0000_0000_0000_0000_0000_0000_0000

  /** A calendar date without time component, as a day number. */
  type Day = int

  /** One perishable item. The destructors `id`, `name`, `emoji` and
      `expiryDate` are the accessors of the source. */
  datatype Item = Item(id: Uuid, name: string, emoji: string, expiryDate: Day)

  /** `Item::new`: the fresh id is supplied by the caller. */
  function NewItem(freshId: Uuid, name: string, emoji: string, expiryDate: Day): (it: Item)
    ensures it.id == freshId
    ensures it.name == name && it.emoji == emoji && it.expiryDate == expiryDate
  {
    Item(freshId, name, emoji, expiryDate)
  }

  /** Signed number of days from `today` until the item expires; negative
      once the expiry date has passed. */
  function DaysRemaining(item: Item, today: Day): (days: int)
    ensures today + days == item.expiryDate
    ensures days < 0 <==> item.expiryDate < today
    ensures days == 0 <==> item.expiryDate == today
  {
    item.expiryDate - today
  }

  // ---------------------------------------------------------------------------
  // Urgency tier and its CSS class
  // ---------------------------------------------------------------------------

  datatype Status = StatusError | StatusWarning | StatusSafe

  /** Three-tier classification of a remaining-day count. */
  function Tier(days: int): (s: Status)
    ensures s == StatusError <==> days <= 1
    ensures s == StatusWarning <==> 2 <= days <= 3
    ensures s == StatusSafe <==> days >= 4
  {
    if days <= 1 then StatusError
    else if days <= 3 then StatusWarning
    else StatusSafe
  }

  /** How urgent a tier is: the larger, the more urgent. */
  function Urgency(s: Status): nat
  {
    match s
    case StatusError => 2
    case StatusWarning => 1
    case StatusSafe => 0
  }

  function ClassName(s: Status): string
  {
    match s
    case StatusError => "status-error"
    case StatusWarning => "status-warning"
    case StatusSafe => "status-safe"
  }

  /** `Item::status_class`. */
  function StatusClass(item: Item, today: Day): (c: string)
    ensures c == "status-error" <==> DaysRemaining(item, today) <= 1
    ensures c == "status-warning" <==> 2 <= DaysRemaining(item, today) <= 3
    ensures c == "status-safe" <==> DaysRemaining(item, today) >= 4
  {
    ClassName(Tier(DaysRemaining(item, today)))
  }

  /** Fewer days left never gives a less urgent tier. */
  lemma TierMonotone(d1: int, d2: int)
    requires d1 <= d2
    ensures Urgency(Tier(d1)) >= Urgency(Tier(d2))
  {
  }

  // ---------------------------------------------------------------------------
  // Decimal rendering of a count (the `{}` of `format!`)
  // ---------------------------------------------------------------------------

  predicate IsDigit(c: char)
  {
    '0' <= c <= '9'
  }

  predicate AllDigits(s: string)
  {
    forall i :: 0 <= i < |s| ==> IsDigit(s[i])
  }

  function DigitChar(d: nat): (c: char)
    requires d < 10
    ensures IsDigit(c)
  {
    ('0' as int + d) as char
  }

  function DigitValue(c: char): (d: nat)
    requires IsDigit(c)
    ensures d < 10
  {
    c as int - '0' as int
  }

  /** Shortest decimal form of `n`. */
  function Decimal(n: nat): (s: string)
    ensures |s| > 0 && AllDigits(s)
    ensures |s| > 1 ==> s[0] != '0'
    decreases n
  {
    if n < 10 then [DigitChar(n)] else Decimal(n / 10) + [DigitChar(n % 10)]
  }

  /** The number a string of digits denotes. */
  function DecimalValue(s: string): nat
    requires AllDigits(s)
  {
    if s == [] then 0 else 10 * DecimalValue(s[..|s| - 1]) + DigitValue(s[|s| - 1])
  }

  /** Reading back the decimal form gives the number. */
  lemma {:induction false} DecimalRoundTrip(n: nat)
    ensures DecimalValue(Decimal(n)) == n
    decreases n
  {
    var s := Decimal(n);
    if n >= 10 {
      DecimalRoundTrip(n / 10);
      assert s[..|s| - 1] == Decimal(n / 10);
    }
  }

  // ---------------------------------------------------------------------------
  // Deadline text
  // ---------------------------------------------------------------------------

  const EXPIRED_PREFIX: string := "已过期 "
  const REMAINING_PREFIX: string := "还剩 "
  const DAYS_SUFFIX: string := " 天"
  const DUE_TODAY: string := "今天到期"

  /** The three branches of `display_deadline` on a day count. */
  function DeadlineText(days: int): string
  {
    if days < 0 then EXPIRED_PREFIX + Decimal(-days) + DAYS_SUFFIX
    else if days == 0 then DUE_TODAY
    else REMAINING_PREFIX + Decimal(days) + DAYS_SUFFIX
  }

  /** `Item::display_deadline`. */
  function DisplayDeadline(item: Item, today: Day): (text: string)
    ensures DaysRemaining(item, today) == 0 <==> text == DUE_TODAY
  {
    var days := DaysRemaining(item, today);
    assert days != 0 ==> |DeadlineText(days)| != |DUE_TODAY|;
    DeadlineText(days)
  }

  /** The middle part of `s` between `prefix` and `suffix`, if `s` has that shape
      and the middle is a non-empty run of digits. */
  function CountBetween(s: string, prefix: string, suffix: string): Option<nat>
  {
    if |s| > |prefix| + |suffix| && s[..|prefix|] == prefix && s[|s| - |suffix|..] == suffix
       && AllDigits(s[|prefix|..|s| - |suffix|])
    then Some(DecimalValue(s[|prefix|..|s| - |suffix|]))
    else None
  }

  /** Reads a day count back from a deadline text: the independent inverse of
      `DeadlineText`. */
  function ParseDeadline(s: string): Option<int>
  {
    if s == DUE_TODAY then Some(0)
    else match CountBetween(s, EXPIRED_PREFIX, DAYS_SUFFIX)
      case Some(n) => Some(-(n as int))
      case None =>
        match CountBetween(s, REMAINING_PREFIX, DAYS_SUFFIX)
        case Some(n) => Some(n as int)
        case None => None
  }

  lemma CountBetweenOfShape(prefix: string, digits: string, suffix: string)
    requires |digits| > 0 && AllDigits(digits)
    ensures CountBetween(prefix + digits + suffix, prefix, suffix) == Some(DecimalValue(digits))
  {
  }

  /** The deadline text determines the day count: parsing it gives the count back. */
  lemma {:induction false} DeadlineRoundTrip(days: int)
    ensures ParseDeadline(DeadlineText(days)) == Some(days)
  {
    var s := DeadlineText(days);
    if days < 0 {
      CountBetweenOfShape(EXPIRED_PREFIX, Decimal(-days), DAYS_SUFFIX);
      DecimalRoundTrip(-days);
      assert |s| != |DUE_TODAY|;
    } else if days > 0 {
      CountBetweenOfShape(REMAINING_PREFIX, Decimal(days), DAYS_SUFFIX);
      DecimalRoundTrip(days);
      assert |s| != |DUE_TODAY|;
      assert s[0] != EXPIRED_PREFIX[0];
      assert CountBetween(s, EXPIRED_PREFIX, DAYS_SUFFIX) == None;
    }
  }

  /** Different day counts never render to the same text. */
  lemma DeadlineTextInjective(d1: int, d2: int)
    requires DeadlineText(d1) == DeadlineText(d2)
    ensures d1 == d2
  {
    DeadlineRoundTrip(d1);
    DeadlineRoundTrip(d2);
  }

  /** The branch taken by `display_deadline`, and the count it shows. */
  lemma DeadlineBranches(days: int)
    ensures days < 0 ==> DeadlineText(days)[..|EXPIRED_PREFIX|] == EXPIRED_PREFIX
    ensures days == 0 <==> DeadlineText(days) == DUE_TODAY
    ensures days > 0 ==> DeadlineText(days)[..|REMAINING_PREFIX|] == REMAINING_PREFIX
    ensures days != 0 ==> DecimalValue(Decimal(if days < 0 then -days else days))
                          == (if days < 0 then -days else days)
  {
    var s := DeadlineText(days);
    if days != 0 {
      DecimalRoundTrip(if days < 0 then -days else days);
      assert |s| != |DUE_TODAY|;
    }
  }

  // ---------------------------------------------------------------------------
  // The sample data of src/utils.rs as test vectors
  // ---------------------------------------------------------------------------

  /** Expiry offsets (days from today) of the seven sample items. */
  const SAMPLE_OFFSETS: seq<int> := [-2, 1, 3, 2, 10, 60, 5]

  /** The comments on the sample data agree with the thresholds: expired and
      one-day items are red, two and three days yellow, the rest green; an
      item that expired two days ago reads "已过期 2 天". */
  lemma SampleDataTiers()
    ensures forall i :: 0 <= i < |SAMPLE_OFFSETS| ==>
      Tier(SAMPLE_OFFSETS[i]) == [StatusError, StatusError, StatusWarning, StatusWarning,
                                  StatusSafe, StatusSafe, StatusSafe][i]
    ensures DeadlineText(-2) == "已过期 2 天"
  {
  }
}
