/** The synthetic card-data factory: canonical approved/declined numbers, the
    class-load-time `validYear`, and one factory per test scenario. The clock
    (`LocalDate.now()`) and the Faker draws are parameters. */
module DataGenerator {
  import opened JavaLang
  import opened Calendar

  /** A year of the common era. Before year 1 the "yy" pattern prints the
      year of the era (1 BCE, ISO year 0, prints as "01"), which this model
      does not cover. */
  type Year = y: int | y >= 1 witness 2026

  /** The part of `LocalDate.now()` the generator reads. */
  datatype LocalDate = LocalDate(year: Year, month: Month)

  /** One card as typed into the payment or credit form. */
  datatype CardInfo = CardInfo(number: string, month: string, year: string, holder: string, cvc: string)

  /** `CardInfo` is a value (Lombok `@Data`): two cards are equal exactly
      when their five fields are. */
  lemma CardInfoEqualByFields(a: CardInfo, b: CardInfo)
    ensures a == b <==> (a.number == b.number && a.month == b.month && a.year == b.year
                         && a.holder == b.holder && a.cvc == b.cvc)
  {
  }

  /** Rows read back from storage; plain holders with no behaviour. */
  datatype CreditCardData = CreditCardData(id: string, bankId: string, created: string, status: string)
  datatype PaymentCardData = PaymentCardData(id: string, amount: string, created: string, status: string, transactionId: string)
  datatype TableOrderEntity = TableOrderEntity(id: string, created: string, creditId: string, paymentId: string)

  /** The two numbers the bank simulator recognises. */
  const APPROVED_CARD: string := "4444 4444 4444 4441"
  const DECLINED_CARD: string := "4444 4444 4444 4442"

  /** What `faker.number().digits(3)` always yields. */
  predicate IsCvc(s: string) {
    |s| == 3 && IsDigits(s)
  }

  /** `getCurrentMonth`: the month of `today` under pattern "MM". */
  function GetCurrentMonth(today: LocalDate): (s: string)
    ensures |s| == 2 && IsDigits(s)
    ensures ParseInt(s) == Some(today.month)
  {
    TwoDigits(today.month)
  }

  /** `getCurrentYear`: the year of `today` under pattern "yy". */
  function GetCurrentYear(today: LocalDate): (s: string)
    ensures |s| == 2 && IsDigits(s)
    ensures ParseInt(s) == Some(today.year % 100)
  {
    TwoDigits(today.year % 100)
  }

  /** The expiry period "today" stands for: its month and two-digit year. */
  function CurrentPeriod(today: LocalDate): Period {
    Period(today.month, today.year % 100)
  }

  /** The period the boundary scenarios start from. They read the clock
      twice, once for the month (`getCurrentMonth`) and once for the year
      (`getCurrentYear`), and the two reads can fall on different days. */
  function ClockPeriod(monthRead: LocalDate, yearRead: LocalDate): (p: Period)
    ensures monthRead == yearRead ==> p == CurrentPeriod(monthRead)
  {
    Period(monthRead.month, yearRead.year % 100)
  }

  /** The card's month and year texts parse to the period numbered `k`. */
  predicate ExpiresAtIndex(card: CardInfo, k: int) {
    && ParseInt(card.month).Some? && ParseInt(card.year).Some?
    && 1 <= ParseInt(card.month).value <= 12
    && Index(Period(ParseInt(card.month).value, ParseInt(card.year).value)) == k
  }

  /** The static `validYear`, evaluated once when the class is loaded on
      `loadDate`: the two-digit year of that day, plus one. */
  function ValidYear(loadDate: LocalDate): (y: int)
    ensures y == loadDate.year % 100 + 1
    ensures 1 <= y <= 100
  {
    ParseInt(GetCurrentYear(loadDate)).value + 1
  }

  /** The expiry every "valid" scenario uses: this month as two digits, and
      `validYear` as a plain decimal without padding. */
  predicate ExpiresInValidYear(card: CardInfo, loadDate: LocalDate, today: LocalDate) {
    |card.month| == 2 && IsDigits(card.month) && ParseInt(card.month) == Some(today.month)
    && CanonicalDecimal(card.year) && ParseInt(card.year) == Some(loadDate.year % 100 + 1)
  }

  function GenerateDataWithApprovedCard(loadDate: LocalDate, today: LocalDate, randomName: string, randomCvc: string): (card: CardInfo)
    requires IsCvc(randomCvc)
    ensures card.number == APPROVED_CARD
    ensures ExpiresInValidYear(card, loadDate, today)
    ensures card.holder == randomName && card.cvc == randomCvc && IsCvc(card.cvc)
  {
    CardInfo(APPROVED_CARD, GetCurrentMonth(today), ValueOf(ValidYear(loadDate)), randomName, randomCvc)
  }

  function GenerateDataWithDeclineCard(loadDate: LocalDate, today: LocalDate, randomName: string, randomCvc: string): (card: CardInfo)
    requires IsCvc(randomCvc)
    ensures card.number == DECLINED_CARD
    ensures ExpiresInValidYear(card, loadDate, today)
    ensures card.holder == randomName && card.cvc == randomCvc && IsCvc(card.cvc)
  {
    CardInfo(DECLINED_CARD, GetCurrentMonth(today), ValueOf(ValidYear(loadDate)), randomName, randomCvc)
  }

  /** `randomCardNumber` is `faker.number().digits(16)`. */
  function GenerateDataWithRandomCardNumber(loadDate: LocalDate, today: LocalDate, randomName: string, randomCardNumber: string, randomCvc: string): (card: CardInfo)
    requires |randomCardNumber| == 16 && IsDigits(randomCardNumber)
    requires IsCvc(randomCvc)
    ensures card.number == randomCardNumber
    ensures |card.number| == 16 && IsDigits(card.number)
    ensures card.number != APPROVED_CARD && card.number != DECLINED_CARD
    ensures ExpiresInValidYear(card, loadDate, today)
    ensures card.holder == randomName && card.cvc == randomCvc && IsCvc(card.cvc)
  {
    assert !IsDigit(APPROVED_CARD[4]) && !IsDigit(DECLINED_CARD[4]);
    CardInfo(randomCardNumber, GetCurrentMonth(today), ValueOf(ValidYear(loadDate)), randomName, randomCvc)
  }

  function GenerateDataWithApprovedCardAndParametrizedMonthAndYear(month: string, year: string, randomName: string, randomCvc: string): (card: CardInfo)
    requires IsCvc(randomCvc)
    ensures card.number == APPROVED_CARD
    ensures card.month == month && card.year == year
    ensures card.holder == randomName && card.cvc == randomCvc && IsCvc(card.cvc)
  {
    CardInfo(APPROVED_CARD, month, year, randomName, randomCvc)
  }

  /** `fixedString` is `faker.lorem().fixedString(length)`. */
  function GenerateDataWithParametrizedLengthCardHolderName(loadDate: LocalDate, today: LocalDate, length: int, fixedString: string, randomCvc: string): (card: CardInfo)
    requires |fixedString| == length
    requires IsCvc(randomCvc)
    ensures card.number == APPROVED_CARD
    ensures ExpiresInValidYear(card, loadDate, today)
    ensures |card.holder| == length && card.holder == fixedString
    ensures card.cvc == randomCvc && IsCvc(card.cvc)
  {
    CardInfo(APPROVED_CARD, GetCurrentMonth(today), ValueOf(ValidYear(loadDate)), fixedString, randomCvc)
  }

  function GenerateDataWithParametrizedCardHolderName(loadDate: LocalDate, today: LocalDate, name: string, randomCvc: string): (card: CardInfo)
    requires IsCvc(randomCvc)
    ensures card.number == APPROVED_CARD
    ensures ExpiresInValidYear(card, loadDate, today)
    ensures card.holder == name && card.cvc == randomCvc && IsCvc(card.cvc)
  {
    CardInfo(APPROVED_CARD, GetCurrentMonth(today), ValueOf(ValidYear(loadDate)), name, randomCvc)
  }

  /** A card that expired last month. As written, the month text is only
      filled in when the rolled-back month is below 10; for October to
      December it stays empty. The year is printed without padding (see
      `ExpiredYearAtCenturyStart` for the negative case). */
  method GenerateDataWithAnExpiredCardForOneMonth(monthRead: LocalDate, yearRead: LocalDate, randomName: string, randomCvc: string) returns (card: CardInfo)
    requires IsCvc(randomCvc)
    ensures card.number == APPROVED_CARD && card.holder == randomName && card.cvc == randomCvc
    ensures var expired := MonthBefore(ClockPeriod(monthRead, yearRead));
      && card.year == ValueOf(expired.year)
      && ParseInt(card.year) == Some(expired.year)
      && (expired.month < 10 ==> card.month == TwoDigits(expired.month) && ParseInt(card.month) == Some(expired.month))
      && (expired.month >= 10 ==> card.month == "")
    ensures card.month == "" <==> monthRead.month in {1, 11, 12}
    ensures monthRead.month in {1, 11, 12} ==> ParseInt(card.month) == None
    ensures card.month != "" ==> ExpiresAtIndex(card, Index(ClockPeriod(monthRead, yearRead)) - 1)
  {
    var currentMonth := ParseInt(GetCurrentMonth(monthRead)).value;
    var currentYear := ParseInt(GetCurrentYear(yearRead)).value;
    if currentMonth == 1 {
      currentMonth := 12;
      currentYear := currentYear - 1;
    } else {
      currentMonth := currentMonth - 1;
    }

    MonthBeforeCases(ClockPeriod(monthRead, yearRead));
    ghost var expired := MonthBefore(ClockPeriod(monthRead, yearRead));
    assert currentMonth == expired.month && currentYear == expired.year;

    var minusOneFromCurrentMonth := "";
    if currentMonth < 10 {
      minusOneFromCurrentMonth := "0" + ValueOf(currentMonth);
      ZeroPrefixIsPadding(currentMonth);
    }
    assert ParseInt("") == None;
    card := CardInfo(APPROVED_CARD, minusOneFromCurrentMonth, ValueOf(currentYear), randomName, randomCvc);
  }

  /** The last month inside the five-year horizon: one month before this
      month five years on. The month text follows the same as-written rule
      as for the expired card. */
  method GenerateDataWithMaxDateMinusOneMonth(monthRead: LocalDate, yearRead: LocalDate, randomName: string, randomCvc: string) returns (card: CardInfo)
    requires IsCvc(randomCvc)
    ensures card.number == APPROVED_CARD && card.holder == randomName && card.cvc == randomCvc
    ensures var last := MonthBefore(YearsLater(ClockPeriod(monthRead, yearRead), 5));
      && card.year == ValueOf(last.year)
      && ParseInt(card.year) == Some(last.year)
      && (last.month < 10 ==> card.month == TwoDigits(last.month) && ParseInt(card.month) == Some(last.month))
      && (last.month >= 10 ==> card.month == "")
    ensures card.month == "" <==> monthRead.month in {1, 11, 12}
    ensures monthRead.month in {1, 11, 12} ==> ParseInt(card.month) == None
    ensures card.month != "" ==> ExpiresAtIndex(card, Index(ClockPeriod(monthRead, yearRead)) + 59)
  {
    var currentMonth := ParseInt(GetCurrentMonth(monthRead)).value;
    var preMaxMonth := 0;
    var maxYear := ParseInt(GetCurrentYear(yearRead)).value + 5;

    if currentMonth == 1 {
      preMaxMonth := 12;
      maxYear := maxYear - 1;
    } else {
      preMaxMonth := currentMonth - 1;
    }

    MonthBeforeCases(YearsLater(ClockPeriod(monthRead, yearRead), 5));
    ghost var last := MonthBefore(YearsLater(ClockPeriod(monthRead, yearRead), 5));
    assert preMaxMonth == last.month && maxYear == last.year;

    var strPreMaxMonth := "";
    if preMaxMonth < 10 {
      strPreMaxMonth := "0" + ValueOf(preMaxMonth);
      ZeroPrefixIsPadding(preMaxMonth);
    }
    assert ParseInt("") == None;
    card := CardInfo(APPROVED_CARD, strPreMaxMonth, ValueOf(maxYear), randomName, randomCvc);
  }

  /** In a January of a year ending in 00 the expired card's year text is
      "-1": the two-digit year 00 rolls back below zero and is not wrapped. */
  lemma ExpiredYearAtCenturyStart(monthRead: LocalDate, yearRead: LocalDate)
    requires monthRead.month == 1 && yearRead.year % 100 == 0
    ensures ValueOf(MonthBefore(ClockPeriod(monthRead, yearRead)).year) == "-1"
  {
    MonthBeforeCases(ClockPeriod(monthRead, yearRead));
    assert NatToDecimal(1) == "1";
  }

  /** The two canonical numbers are four groups of four digits and differ
      only in their final digit. */
  lemma CanonicalNumbersDifferInLastDigit()
    ensures |APPROVED_CARD| == |DECLINED_CARD| == 19
    ensures forall i :: 0 <= i < 19 && i % 5 == 4 ==> APPROVED_CARD[i] == ' ' == DECLINED_CARD[i]
    ensures forall i :: 0 <= i < 19 && i % 5 != 4 ==> IsDigit(APPROVED_CARD[i]) && IsDigit(DECLINED_CARD[i])
    ensures APPROVED_CARD[..18] == DECLINED_CARD[..18] && APPROVED_CARD[18] != DECLINED_CARD[18]
  {
  }

  /** The declined scenario is the approved scenario with the other number. */
  lemma DeclineCardDiffersOnlyInNumber(loadDate: LocalDate, today: LocalDate, randomName: string, randomCvc: string)
    requires IsCvc(randomCvc)
    ensures GenerateDataWithDeclineCard(loadDate, today, randomName, randomCvc)
         == GenerateDataWithApprovedCard(loadDate, today, randomName, randomCvc).(number := DECLINED_CARD)
  {
  }

  /** When the class was loaded in the current year, the "valid" expiry is
      this month one year on: exactly twelve months after today. */
  lemma ValidExpiryIsTwelveMonthsAhead(loadDate: LocalDate, today: LocalDate, card: CardInfo)
    requires loadDate.year == today.year
    requires ExpiresInValidYear(card, loadDate, today)
    ensures ExpiresAtIndex(card, Index(CurrentPeriod(today)) + 12)
  {
  }
}
