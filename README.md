# Card-data generator of the payment/credit test harness

This project models `DataGenerator`, the factory that builds the synthetic
`CardInfo` records (number, month, year, holder, cvc) which the end-to-end
tests type into the payment and credit forms or post to the HTTP API. It
covers the canonical approved and declined card numbers, the static
`validYear`, the two date getters, and every `generateData*` scenario: the
card valid for a year, the random 16-digit number, caller-supplied month/year
or holder, a holder of fixed length, the card expired by one month, and the
card one month before the five-year horizon.

The clock and the random-data library are parameters:

- `LocalDate.now()` becomes a `LocalDate(year, month)` argument `today`.
  The two boundary scenarios read the clock twice: once in `getCurrentMonth`
  and once in `getCurrentYear`. They take the two readings as separate
  arguments, `monthRead` and `yearRead`, because a call that crosses midnight
  on 31 December sees month 12 together with the new year.
- The static `validYear` is computed once when the class is loaded, so it
  reads the clock at a possibly different moment. It is `ValidYear(loadDate)`,
  and the factories take both `loadDate` and `today`.
- Each Faker draw is an argument with the shape Faker guarantees: a full name
  (`randomName`), 3 digits for the cvc, 16 digits for the random number, and a
  string of length `n` for `lorem().fixedString(n)`.

Modules:

- `JavaLang` models the Java library calls the generator leans on:
  `Integer.parseInt`, `String.valueOf(int)` (which is also what `"0" + int`
  uses), and the zero-padded two-digit fields `"MM"` and `"yy"` of
  `DateTimeFormatter`.
- `Calendar` is an independent reference for month arithmetic. Each
  (month, year) period is numbered by the months since month 1 of year 0, and
  "one month before" means that number minus one.
- `DataGenerator` holds the factory. The pure factories are functions. The
  two boundary scenarios reassign local variables through if/else, so they
  are methods, and their postconditions relate the result to
  `Calendar.MonthBefore`.

For every year of the common era, the boundary methods are modelled exactly as the code behaves:

- The month text starts as `""`. It is overwritten with `"0" + month` only
  when the rolled-back month is below 10.
- So for a rolled month of 10, 11 or 12 the card's month is the empty string,
  which `Integer.parseInt` rejects. This happens when the month read is
  November, December or January.
- The intended behaviour is a two-digit month for every rolled month and a
  two-digit year. The model follows the code, not that intent.
- Years are printed with `String.valueOf` and have no padding. A two-digit
  year of 05 gives `validYear` "6", and the expired card in a January of a
  year ending in 00 has year "-1".

## Model

| member | source | states |
|---|---|---|
| `JavaLang.ParseInt` | src/test/java/ru/netology/data/DataGenerator.java:14 | `Integer.parseInt`: a successful parse is a Java `int` of a non-empty text, and it is exactly the value of the text as digits, or as a '-'/'+' sign followed by digits; conversely every such text whose value is in range parses to that value. So empty, sign-only and non-digit text is rejected |
| `JavaLang.NatToDecimal` | src/test/java/ru/netology/data/DataGenerator.java:22 | the decimal text of a natural number is all digits, denotes that number, has no leading zero, and is one character exactly for values below 10 |
| `JavaLang.ValueOf` | src/test/java/ru/netology/data/DataGenerator.java:70-71 | `String.valueOf(int)` starts with '-' exactly for negative values, is canonical (unpadded) decimal after the sign, and `Integer.parseInt` reads it back to the same value |
| `JavaLang.TwoDigits` | src/test/java/ru/netology/data/DataGenerator.java:96 | a two-digit zero-padded field ("MM"/"yy") has length 2, is all digits and parses back to the value |
| `JavaLang.ZeroPrefixIsPadding` | src/test/java/ru/netology/data/DataGenerator.java:67-69 | for a one-digit month, `"0" + month` equals the two-digit zero-padded form |
| `Calendar.FromIndex` | src/test/java/ru/netology/data/DataGenerator.java:61-64 | the period built from a month number has that month number |
| `Calendar.FromIndexOfIndex` | src/test/java/ru/netology/data/DataGenerator.java:61-64 | numbering periods by months loses nothing: the numbering is a bijection with its inverse |
| `Calendar.MonthBefore` | src/test/java/ru/netology/data/DataGenerator.java:56-64 | the previous calendar month is the period whose month number is one less |
| `Calendar.YearsLater` | src/test/java/ru/netology/data/DataGenerator.java:79 | the same month `n` years on is `12 * n` months later |
| `Calendar.MonthBeforeCases` | src/test/java/ru/netology/data/DataGenerator.java:61-64 | the previous month is December of the previous year when the month is January, else the same year with the month decremented |
| `DataGenerator.CardInfoEqualByFields` | src/test/java/ru/netology/data/DataGenerator.java:106-115 | `CardInfo` is a five-field value (number, month, year, holder, cvc) with equality by value: two cards are equal exactly when all five fields are; its setters are under Left out |
| `DataGenerator.GetCurrentMonth` | src/test/java/ru/netology/data/DataGenerator.java:94-98 | the current month is exactly two digits and parses to today's month (01..12) |
| `DataGenerator.GetCurrentYear` | src/test/java/ru/netology/data/DataGenerator.java:100-104 | the current year is exactly two digits and parses to today's year modulo 100 |
| `DataGenerator.ClockPeriod` | src/test/java/ru/netology/data/DataGenerator.java:59-60 | the boundary scenarios start from the month of one clock read and the two-digit year of another; when both reads return the same date this is today's period |
| `DataGenerator.ValidYear` | src/test/java/ru/netology/data/DataGenerator.java:14 | the static `validYear` is the two-digit year of the class-load date plus one, so it lies in 1..100 |
| `DataGenerator.GenerateDataWithApprovedCard` | src/test/java/ru/netology/data/DataGenerator.java:19-23 | approved number; month is two digits parsing to today's month; year is unpadded decimal parsing to `validYear`; holder is the drawn name; cvc is 3 digits |
| `DataGenerator.GenerateDataWithDeclineCard` | src/test/java/ru/netology/data/DataGenerator.java:25-30 | declined number, with the same expiry, holder and cvc shape as the approved card |
| `DataGenerator.GenerateDataWithRandomCardNumber` | src/test/java/ru/netology/data/DataGenerator.java:32-37 | the number is the drawn 16-digit string, so it is neither canonical number; the expiry, holder and cvc are as for the approved card |
| `DataGenerator.GenerateDataWithApprovedCardAndParametrizedMonthAndYear` | src/test/java/ru/netology/data/DataGenerator.java:39-43 | approved number; the caller's month and year pass through unchanged; drawn holder; 3-digit cvc |
| `DataGenerator.GenerateDataWithParametrizedLengthCardHolderName` | src/test/java/ru/netology/data/DataGenerator.java:45-49 | the holder has exactly the requested length (the fixed string drawn); the number, expiry and cvc are as for the approved card |
| `DataGenerator.GenerateDataWithParametrizedCardHolderName` | src/test/java/ru/netology/data/DataGenerator.java:51-54 | the caller's holder passes through unchanged; the number, expiry and cvc are as for the approved card |
| `DataGenerator.GenerateDataWithAnExpiredCardForOneMonth` | src/test/java/ru/netology/data/DataGenerator.java:56-72 | the card's period is the month before the clock period (month of the first read, two-digit year of the second). The year is its unpadded decimal. The month is two-digit padded when below 10 and empty otherwise, so it is empty (and unparseable) exactly when the month read is 1, 11 or 12. Whenever the month is not empty, the card's texts parse to the period one month before the clock period |
| `DataGenerator.GenerateDataWithMaxDateMinusOneMonth` | src/test/java/ru/netology/data/DataGenerator.java:74-92 | the card's period is the month before the clock period five years on. The year is its unpadded decimal. The month follows the same as-written rule, so it is empty exactly when the month read is 1, 11 or 12. Whenever the month is not empty, the card's texts parse to the period 59 months after the clock period |
| `DataGenerator.ExpiredYearAtCenturyStart` | src/test/java/ru/netology/data/DataGenerator.java:60-71 | when the month read is January and the year read ends in 00, the expired card's year text is "-1": the rolled-back year is not wrapped to 99 |
| `DataGenerator.CanonicalNumbersDifferInLastDigit` | src/test/java/ru/netology/data/DataGenerator.java:15-16 | both canonical numbers are four space-separated groups of four digits and differ only in the last digit |
| `DataGenerator.DeclineCardDiffersOnlyInNumber` | src/test/java/ru/netology/data/DataGenerator.java:19-30 | the declined scenario equals the approved scenario with the number replaced |
| `DataGenerator.ValidExpiryIsTwelveMonthsAhead` | src/test/java/ru/netology/data/DataGenerator.java:14-22 | when the class was loaded in the current year, the month and year texts of a "valid" card parse to the period exactly twelve months after today |

## Left out

- The Faker library: its draws are parameters. Only their shapes are assumed: 3 digits for the cvc, 16 digits for the random number, and exactly `n` characters for `fixedString(n)`. Faker is not part of this model. The precondition `|fixedString| == length` only admits lengths of 0 or more, which covers every call site: they pass 1, 2, 21 and 22 (PaymentTest.java lines 114, 123, 263 and 272; CreditTest.java lines 115, 124, 264 and 273).
- `LocalDate.now()`: the clock is the `today` and `loadDate` parameters. Years are those of the common era (1 and later), and `"yy"` is modelled as the year modulo 100. Year 0 (1 BCE, which `"yy"` prints as `"01"`) and negative years print the year of the era and are not modelled.
- `JavaLang.ParseInt`: accepts only ASCII digits. `Integer.parseInt` also accepts other Unicode decimal digits, but no input in this generator contains them.
- Java `int` overflow: every value the generator computes lies between -1 and 105, so int arithmetic is written as plain integer arithmetic.
- `CardInfo` setters and the no-argument constructor (generated by Lombok): tests use them to clear one field. In the model this is a datatype update such as `card.(month := "")`. The null fields of the no-argument constructor are not modelled.
- `CreditCardData`, `PaymentCardData`, `TableOrderEntity`: plain data holders with no behaviour, modelled as datatypes only.
- The test classes, page objects, `SQLHelper` and `APIHelper`: browser automation, HTTP calls and JDBC queries against an external application. That logic belongs to the external system and is not part of this model.
