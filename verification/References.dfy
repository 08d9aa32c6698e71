/**
 Public references: the text a transfer is known by, and when a lookup by that text finds it.

 A reference carries the date on the server's clock when the movement was posted; the row carries the
 time its transaction began.  A lookup only searches the day the reference carries.
 */
module References {
  import opened Calendar
  import opened Store
  import opened Scripts
  import opened Serializability
  import opened Alone
  import opened Services
  import opened Verdicts
  import opened Promises

  const BASE32: string := "0123456789ABCDEFGHJKMNPQRSTVWXYZ"

  // ---------------------------------------------------------------- the random part

  type Bytes = bs: seq<nat> | |bs| == 5 && forall i :: 0 <= i < 5 ==> bs[i] < 256 witness [0, 0, 0, 0, 0]

  // The 40 bits as one number.
  function Bits(bytes: Bytes): nat {
    (((bytes[0] * 256 + bytes[1]) * 256 + bytes[2]) * 256 + bytes[3]) * 256 + bytes[4]
  }

  function TwoTo(n: nat): (r: nat)
    ensures r >= 1
  {
    if n == 0 then 1 else 2 * TwoTo(n - 1)
  }

  // Base 32, most significant digit first.
  function Digits(n: nat, k: nat): (text: string)
    ensures |text| == k
  {
    if k == 0 then "" else Digits(n / 32, k - 1) + [BASE32[n % 32]]
  }

  // Five bits out of two neighbouring bytes.
  function Slice(bytes: Bytes, i: nat): nat
    requires i < 8
  {
    var byteIndex, shift := i * 5 / 8, i * 5 % 8;
    var next := if byteIndex + 1 < 5 then bytes[byteIndex + 1] else 0;
    (bytes[byteIndex] * 256 + next) / TwoTo(11 - shift) % 32
  }

  // The eight slices are the digits of the 40 bits: nothing is lost and nothing is read twice.
  method Suffix(bytes: Bytes) returns (suffix: string)
    ensures suffix == Digits(Bits(bytes), 8)
  {
    suffix := "";
    for i := 0 to 8
      invariant |suffix| == i && forall k :: 0 <= k < i ==> suffix[k] == BASE32[Slice(bytes, k)]
    {
      var byteIndex, shift := i * 5 / 8, i * 5 % 8;
      var next := if byteIndex + 1 < 5 then bytes[byteIndex + 1] else 0;
      var chunk := (bytes[byteIndex] * 256 + next) / TwoTo(11 - shift);
      suffix := suffix + [BASE32[chunk % 32]];
    }
    SlicesAreDigits(bytes);
  }

  // The number whose base-32 digits are `ds`.
  function Value(ds: seq<nat>): nat {
    if |ds| == 0 then 0 else Value(ds[..|ds| - 1]) * 32 + ds[|ds| - 1]
  }

  lemma {:induction false} DigitsOfValue(ds: seq<nat>)
    requires forall i :: 0 <= i < |ds| ==> ds[i] < 32
    ensures forall i :: 0 <= i < |ds| ==> Digits(Value(ds), |ds|)[i] == BASE32[ds[i]]
  {
    if |ds| > 0 {
      var front, last := ds[..|ds| - 1], ds[|ds| - 1];
      DigitsOfValue(front);
      assert Value(ds) / 32 == Value(front) && Value(ds) % 32 == last;
    }
  }

  function Slices(bytes: Bytes): seq<nat> {
    [bytes[0] / 8, bytes[0] % 8 * 4 + bytes[1] / 64, bytes[1] / 2 % 32, bytes[1] % 2 * 16 + bytes[2] / 16,
     bytes[2] % 16 * 2 + bytes[3] / 128, bytes[3] / 4 % 32, bytes[3] % 4 * 8 + bytes[4] / 32, bytes[4] % 32]
  }

  lemma Powers()
    ensures TwoTo(4) == 16 && TwoTo(5) == 32 && TwoTo(6) == 64 && TwoTo(7) == 128 && TwoTo(8) == 256
    ensures TwoTo(9) == 512 && TwoTo(10) == 1024 && TwoTo(11) == 2048
  {
    assert TwoTo(4) == 2 * TwoTo(3) && TwoTo(8) == 2 * TwoTo(7);
  }

  lemma UpperSlices(b: nat, c: nat)
    requires b < 256 && c < 256
    ensures (b * 256 + c) / 2048 % 32 == b / 8 && (b * 256 + c) / 512 % 32 == b / 2 % 32
    ensures (b * 256 + c) / 1024 % 32 == b / 4 % 32 && (b * 256 + c) / 256 % 32 == b % 32
  {
    assert (b * 256 + c) / 256 == b;
    assert (b * 256 + c) / 512 == b / 2 && (b * 256 + c) / 1024 == b / 4 && (b * 256 + c) / 2048 == b / 8;
  }

  lemma Remainder32(q: nat, r: nat)
    requires r < 32
    ensures (32 * q + r) % 32 == r
  {
  }

  // The low bits of one byte and the high bits of the next make one digit.
  lemma Joined(b: nat, c: nat)
    ensures c < 4 ==> (b * 4 + c) % 32 == b % 8 * 4 + c
    ensures c < 16 ==> (b * 16 + c) % 32 == b % 2 * 16 + c
    ensures c < 2 ==> (b * 2 + c) % 32 == b % 16 * 2 + c
    ensures c < 8 ==> (b * 8 + c) % 32 == b % 4 * 8 + c
  {
    if c < 4 { Remainder32(b / 8, b % 8 * 4 + c); }
    if c < 16 { Remainder32(b / 2, b % 2 * 16 + c); }
    if c < 2 { Remainder32(b / 16, b % 16 * 2 + c); }
    if c < 8 { Remainder32(b / 4, b % 4 * 8 + c); }
  }

  lemma Quotients(b: nat, c: nat)
    ensures (b * 256 + c) / 64 == b * 4 + c / 64 && (b * 256 + c) / 16 == b * 16 + c / 16
    ensures (b * 256 + c) / 128 == b * 2 + c / 128 && (b * 256 + c) / 32 == b * 8 + c / 32
  {
  }

  lemma LowerSlices(b: nat, c: nat)
    requires b < 256 && c < 256
    ensures (b * 256 + c) / 64 % 32 == b % 8 * 4 + c / 64 && (b * 256 + c) / 16 % 32 == b % 2 * 16 + c / 16
    ensures (b * 256 + c) / 128 % 32 == b % 16 * 2 + c / 128 && (b * 256 + c) / 32 % 32 == b % 4 * 8 + c / 32
  {
    Quotients(b, c);
    Joined(b, c / 64);
    Joined(b, c / 16);
    Joined(b, c / 128);
    Joined(b, c / 32);
  }

  // Which bytes the i-th slice is read out of, and how.
  lemma SlicesRead(bytes: Bytes)
    ensures Slice(bytes, 0) == (bytes[0] * 256 + bytes[1]) / 2048 % 32
    ensures Slice(bytes, 1) == (bytes[0] * 256 + bytes[1]) / 64 % 32
    ensures Slice(bytes, 2) == (bytes[1] * 256 + bytes[2]) / 512 % 32
    ensures Slice(bytes, 3) == (bytes[1] * 256 + bytes[2]) / 16 % 32
    ensures Slice(bytes, 4) == (bytes[2] * 256 + bytes[3]) / 128 % 32
    ensures Slice(bytes, 5) == (bytes[3] * 256 + bytes[4]) / 1024 % 32
    ensures Slice(bytes, 6) == (bytes[3] * 256 + bytes[4]) / 32 % 32
    ensures Slice(bytes, 7) == (bytes[4] * 256 + 0) / 256 % 32
  {
    Powers();
  }

  lemma UpperAre(bytes: Bytes)
    ensures Slices(bytes)[0] == Slice(bytes, 0) && Slices(bytes)[2] == Slice(bytes, 2)
    ensures Slices(bytes)[5] == Slice(bytes, 5) && Slices(bytes)[7] == Slice(bytes, 7)
  {
    SlicesRead(bytes);
    UpperSlices(bytes[0], bytes[1]);
    UpperSlices(bytes[1], bytes[2]);
    UpperSlices(bytes[3], bytes[4]);
    UpperSlices(bytes[4], 0);
  }

  lemma LowerAre(bytes: Bytes)
    ensures Slices(bytes)[1] == Slice(bytes, 1) && Slices(bytes)[3] == Slice(bytes, 3)
    ensures Slices(bytes)[4] == Slice(bytes, 4) && Slices(bytes)[6] == Slice(bytes, 6)
  {
    SlicesRead(bytes);
    LowerSlices(bytes[0], bytes[1]);
    LowerSlices(bytes[1], bytes[2]);
    LowerSlices(bytes[2], bytes[3]);
    LowerSlices(bytes[3], bytes[4]);
  }

  lemma SlicesAre(bytes: Bytes)
    ensures forall i :: 0 <= i < 8 ==> Slices(bytes)[i] == Slice(bytes, i)
  {
    UpperAre(bytes);
    LowerAre(bytes);
  }

  lemma ValueOfEight(ds: seq<nat>)
    requires |ds| == 8
    ensures Value(ds)
            == ((((((ds[0] * 32 + ds[1]) * 32 + ds[2]) * 32 + ds[3]) * 32 + ds[4]) * 32 + ds[5]) * 32 + ds[6]) * 32 + ds[7]
  {
    assert ds[..7][..6] == ds[..6] && ds[..6][..5] == ds[..5] && ds[..5][..4] == ds[..4];
    assert ds[..4][..3] == ds[..3] && ds[..3][..2] == ds[..2] && ds[..2][..1] == ds[..1] && ds[..1][..0] == [];
    assert Value(ds[..1]) == ds[0];
    assert Value(ds[..2]) == ds[0] * 32 + ds[1];
    assert Value(ds[..4]) == Value(ds[..3]) * 32 + ds[3];
    assert Value(ds[..6]) == Value(ds[..5]) * 32 + ds[5];
  }

  // A byte cut in two and put together again.
  lemma Halves(b: nat)
    ensures b == b / 8 * 8 + b % 8 == b / 2 * 2 + b % 2 == b / 16 * 16 + b % 16
    ensures b == b / 4 * 4 + b % 4 == b / 32 * 32 + b % 32 == b / 128 * 128 + b % 128 == b / 64 * 64 + b % 64
    ensures b < 256 ==> b / 2 == b / 64 * 32 + b / 2 % 32 && b / 4 == b / 128 * 32 + b / 4 % 32
  {
  }

  lemma ValueOfSlices(bytes: Bytes)
    ensures Value(Slices(bytes)) == Bits(bytes)
  {
    ValueOfEight(Slices(bytes));
    Halves(bytes[0]);
    Halves(bytes[1]);
    Halves(bytes[2]);
    Halves(bytes[3]);
    Halves(bytes[4]);
  }

  lemma SlicesAreDigits(bytes: Bytes)
    ensures forall i :: 0 <= i < 8 ==> Digits(Bits(bytes), 8)[i] == BASE32[Slice(bytes, i)]
  {
    SlicesAre(bytes);
    ValueOfSlices(bytes);
    DigitsOfValue(Slices(bytes));
  }

  lemma {:induction false} DigitsLoseNothing(m: nat, n: nat, k: nat)
    requires m < Power32(k) && n < Power32(k) && Digits(m, k) == Digits(n, k)
    ensures m == n
  {
    if k > 0 {
      var a, b := Digits(m, k), Digits(n, k);
      assert a[..k - 1] == Digits(m / 32, k - 1) && b[..k - 1] == Digits(n / 32, k - 1);
      assert a[k - 1] == BASE32[m % 32] && b[k - 1] == BASE32[n % 32];
      DigitsLoseNothing(m / 32, n / 32, k - 1);
      DifferentSymbols(m % 32, n % 32);
    }
  }

  function Power32(k: nat): nat {
    if k == 0 then 1 else 32 * Power32(k - 1)
  }

  lemma SymbolsRise(x: nat)
    requires x < 31
    ensures BASE32[x] < BASE32[x + 1]
  {
  }

  lemma {:induction false} SymbolsAscend(x: nat, y: nat)
    requires x < y < 32
    ensures BASE32[x] < BASE32[y]
    decreases y
  {
    SymbolsRise(y - 1);
    if x < y - 1 {
      SymbolsAscend(x, y - 1);
    }
  }

  lemma DifferentSymbols(x: nat, y: nat)
    requires x < 32 && y < 32 && BASE32[x] == BASE32[y]
    ensures x == y
  {
    if x < y {
      SymbolsAscend(x, y);
    } else if y < x {
      SymbolsAscend(y, x);
    }
  }

  lemma ByteComesOff(x: nat, b: nat, y: nat, c: nat)
    requires b < 256 && c < 256 && x * 256 + b == y * 256 + c
    ensures x == y && b == c
  {
  }

  lemma BitsLoseNothing(a: Bytes, b: Bytes)
    requires Bits(a) == Bits(b)
    ensures a == b
  {
    ByteComesOff(((a[0] * 256 + a[1]) * 256 + a[2]) * 256 + a[3], a[4],
                 ((b[0] * 256 + b[1]) * 256 + b[2]) * 256 + b[3], b[4]);
    ByteComesOff((a[0] * 256 + a[1]) * 256 + a[2], a[3], (b[0] * 256 + b[1]) * 256 + b[2], b[3]);
    ByteComesOff(a[0] * 256 + a[1], a[2], b[0] * 256 + b[1], b[2]);
    ByteComesOff(a[0], a[1], b[0], b[1]);
    assert forall i :: 0 <= i < 5 ==> a[i] == b[i];
  }

  lemma FortyBits(bytes: Bytes)
    ensures Bits(bytes) < Power32(8)
  {
    assert Power32(4) == 32 * Power32(3) && Power32(2) == 32 * Power32(1);
    assert Power32(8) == 32 * Power32(7) && Power32(6) == 32 * Power32(5);
  }

  // Two suffixes are equal only if all forty random bits are.
  lemma SuffixLosesNothing(a: Bytes, b: Bytes)
    requires Digits(Bits(a), 8) == Digits(Bits(b), 8)
    ensures a == b
  {
    FortyBits(a);
    FortyBits(b);
    DigitsLoseNothing(Bits(a), Bits(b), 8);
    BitsLoseNothing(a, b);
  }

  // ---------------------------------------------------------------- the date part

  predicate IsDigit(c: char) {
    '0' <= c <= '9'
  }

  function DigitOf(n: nat): (c: char)
    requires n < 10
    ensures IsDigit(c) && ValueOf(c) == n
  {
    '0' + n as char
  }

  function ValueOf(c: char): (n: nat)
    requires IsDigit(c)
    ensures n < 10
  {
    (c - '0') as nat
  }

  // `padStart(2, '0')`
  function TwoDigits(n: nat): (text: string)
    requires n < 100
    ensures |text| == 2 && IsDigit(text[0]) && IsDigit(text[1]) && ValueOf(text[0]) * 10 + ValueOf(text[1]) == n
  {
    [DigitOf(n / 10), DigitOf(n % 10)]
  }

  predicate IsSymbol(c: char) {
    IsDigit(c) || 'A' <= c <= 'Z'
  }

  // The reference given to a movement that is posted on the day `date`.
  function Reference(date: Date, suffix: string): string
    requires date.Valid()
  {
    "TF" + TwoDigits(date.year % 100) + TwoDigits(date.month) + TwoDigits(date.day) + suffix
  }

  // /^TF(\d{2})(\d{2})(\d{2})[0-9A-Z]{8}$/
  predicate WellFormed(reference: string) {
    && |reference| == 16 && reference[0] == 'T' && reference[1] == 'F'
    && (forall i :: 2 <= i < 8 ==> IsDigit(reference[i]))
    && (forall i :: 8 <= i < 16 ==> IsSymbol(reference[i]))
  }

  // `Date.UTC`: a month or a day out of range counts on from where it leaves off.
  function UtcDay(year: nat, month: nat, day: nat): int
    requires year >= 2
  {
    var index := 12 * year + month - 1;
    ToDays(Date(index / 12, index % 12 + 1, 1)) + day - 1
  }

  // The day whose rows a lookup searches.
  function DayOf(reference: string): int
    requires WellFormed(reference)
  {
    var yy, mm, dd := TwoAt(reference, 2), TwoAt(reference, 4), TwoAt(reference, 6);
    UtcDay(2000 + yy, mm, dd)
  }

  function TwoAt(reference: string, i: nat): nat
    requires i + 1 < |reference| && IsDigit(reference[i]) && IsDigit(reference[i + 1])
  {
    ValueOf(reference[i]) * 10 + ValueOf(reference[i + 1])
  }

  lemma DateIsItsDay(date: Date)
    requires date.Valid() && date.year >= 2
    ensures UtcDay(date.year, date.month, date.day) == ToDays(date)
  {
    assert (12 * date.year + date.month - 1) / 12 == date.year;
  }

  lemma {:induction false} YearsFollow(a: nat, b: nat)
    requires 1 <= a < b
    ensures YearStart(a) + DaysInYear(a) <= YearStart(b)
  {
    if a + 1 < b {
      YearsFollow(a, b - 1);
    }
  }

  lemma {:induction false} MonthIsInYear(year: nat, month: nat)
    requires 1 <= month <= 12
    ensures MonthStart(year, month) + DaysInMonth(year, month) <= DaysInYear(year)
    decreases 12 - month
  {
    assert MonthStart(year, month + 1) == MonthStart(year, month) + DaysInMonth(year, month);
    if month < 12 {
      MonthIsInYear(year, month + 1);
    }
  }

  lemma OtherYearOtherDay(a: Date, b: Date)
    requires a.Valid() && b.Valid() && a.year < b.year
    ensures ToDays(a) < ToDays(b)
  {
    YearsFollow(a.year, b.year);
    MonthIsInYear(a.year, a.month);
  }

  predicate IsSuffix(suffix: string) {
    |suffix| == 8 && forall i :: 0 <= i < 8 ==> IsSymbol(suffix[i])
  }

  lemma ReferenceReads(date: Date, suffix: string)
    requires date.Valid() && IsSuffix(suffix)
    ensures WellFormed(Reference(date, suffix))
    ensures DayOf(Reference(date, suffix)) == UtcDay(2000 + date.year % 100, date.month, date.day)
  {
    var r := Reference(date, suffix);
    assert r[2..4] == TwoDigits(date.year % 100) && r[4..6] == TwoDigits(date.month) && r[6..8] == TwoDigits(date.day);
    assert r[2..4][0] == r[2] && r[2..4][1] == r[3] && r[4..6][0] == r[4] && r[4..6][1] == r[5];
    assert r[6..8][0] == r[6] && r[6..8][1] == r[7];
    assert forall i :: 8 <= i < 16 ==> r[i] == suffix[i - 8];
  }

  // The date with the same two digits for its year.
  function ThisCentury(date: Date): Date {
    Date(2000 + date.year % 100, date.month, date.day)
  }

  lemma ThisCenturyIsValid(date: Date)
    requires date.Valid()
    ensures ThisCentury(date).Valid() && (ThisCentury(date).year == date.year <==> 2000 <= date.year < 2100)
  {
    if Leap(date.year) {
      assert date.year % 100 % 4 == 0;
    }
  }

  // A year of two digits reads back in this century only.
  lemma DayReadsBackIff(date: Date, suffix: string)
    requires date.Valid() && IsSuffix(suffix)
    ensures DayOf(Reference(date, suffix)) == ToDays(date) <==> 2000 <= date.year < 2100
  {
    ReferenceReads(date, suffix);
    ThisCenturyIsValid(date);
    var read := ThisCentury(date);
    DateIsItsDay(read);
    if date.year < read.year {
      OtherYearOtherDay(date, read);
    } else if read.year < date.year {
      OtherYearOtherDay(read, date);
    }
  }

  // ---------------------------------------------------------------- lookups

  // A transfer with the reference it was given.
  datatype Listed = Listed(reference: string, transfer: Transfer)

  // The rows a lookup looks at: those of the day the reference carries, or all of them.
  predicate Searched(reference: string, at: Instant) {
    WellFormed(reference) ==> DayOf(reference) * DAY <= at < (DayOf(reference) + 1) * DAY
  }

  // `WHERE reference = $1 AND created_at >= $2 AND created_at < $3 LIMIT 1`
  function FindByReference(rows: seq<Listed>, reference: string): Option<Transfer> {
    if |rows| == 0 then None
    else
      var row := rows[|rows| - 1];
      if row.reference == reference && Searched(reference, row.transfer.createdAt) then Some(row.transfer)
      else FindByReference(rows[..|rows| - 1], reference)
  }

  // No other row has the reference of the i-th.
  predicate Unshared(rows: seq<Listed>, i: nat)
    requires i < |rows|
  {
    forall j :: 0 <= j < |rows| && j != i ==> rows[j].reference != rows[i].reference
  }

  lemma {:induction false} FindsItself(rows: seq<Listed>, i: nat)
    requires i < |rows| && Unshared(rows, i)
    ensures FindByReference(rows, rows[i].reference)
            == if Searched(rows[i].reference, rows[i].transfer.createdAt) then Some(rows[i].transfer) else None
  {
    var front := rows[..|rows| - 1];
    if i < |rows| - 1 {
      FindsItself(front, i);
    } else {
      NotListed(front, rows[i].reference);
    }
  }

  lemma {:induction false} NotListed(rows: seq<Listed>, reference: string)
    requires forall j :: 0 <= j < |rows| ==> rows[j].reference != reference
    ensures FindByReference(rows, reference) == None
  {
    if |rows| > 0 {
      NotListed(rows[..|rows| - 1], reference);
    }
  }

  lemma SearchedIff(reference: string, at: Instant)
    requires WellFormed(reference)
    ensures Searched(reference, at) <==> at / DAY == DayOf(reference)
  {
    assert at == at / DAY * DAY + at % DAY;
  }

  // The day of an instant, as the reference of a movement posted then carries it.
  function PostedReference(posted: Instant, suffix: string): string {
    FromDaysIsValid(posted / DAY);
    Reference(FromDays(posted / DAY), suffix)
  }

  // A transfer is meant to be found by its reference.  It is exactly when its transaction began on the
  // day the reference carries; else nothing is found.
  lemma FoundIff(rows: seq<Listed>, i: nat, posted: Instant, suffix: string)
    requires i < |rows| && Unshared(rows, i) && IsSuffix(suffix) && rows[i].reference == PostedReference(posted, suffix)
    ensures WellFormed(rows[i].reference)
    ensures FindByReference(rows, rows[i].reference)
            == if rows[i].transfer.createdAt / DAY == DayOf(rows[i].reference) then Some(rows[i].transfer) else None
  {
    FromDaysIsValid(posted / DAY);
    ReferenceReads(FromDays(posted / DAY), suffix);
    FindsItself(rows, i);
    SearchedIff(rows[i].reference, rows[i].transfer.createdAt);
  }

  // In this century that is: exactly when it began on the day it was posted.
  lemma FoundOnItsDayIff(rows: seq<Listed>, i: nat, posted: Instant, suffix: string)
    requires i < |rows| && Unshared(rows, i) && IsSuffix(suffix) && rows[i].reference == PostedReference(posted, suffix)
    requires 2000 <= FromDays(posted / DAY).year < 2100
    ensures FindByReference(rows, rows[i].reference)
            == if rows[i].transfer.createdAt / DAY == posted / DAY then Some(rows[i].transfer) else None
  {
    FoundIff(rows, i, posted, suffix);
    FromDaysIsValid(posted / DAY);
    DayReadsBackIff(FromDays(posted / DAY), suffix);
  }

  // ---------------------------------------------------------------- reversing by reference

  // The log, with the reference of each transfer.
  predicate Lists(rows: seq<Listed>, log: seq<Transfer>) {
    |rows| == |log| && forall i :: 0 <= i < |log| ==> rows[i].transfer == log[i]
  }

  // The command a reversal by reference comes down to; an id that nobody has, when nothing is found.
  function ReversalCommand(rows: seq<Listed>, reference: string, user: Id, key: nat, digest: nat, clockMs: int,
                           unused: Id): Command {
    var found := FindByReference(rows, reference);
    Reverse(user, key, digest, if found.Some? then found.value.id else unused, clockMs)
  }

  lemma UnlistedIsNotFound(p: Policy, db: Db, c: Command, self: Id, now: Instant)
    requires c.Reverse? && KeyR(c.user, c.key) !in db.rows && forall t :: t in db.log ==> t.id != c.original
    ensures Verdict(p, db, c, self, now) == Fail(NotFound)
  {
    FindTransferFinds(db.log, c.original);
    ReverseEnds(p, db, c, self, now);
  }

  // A reversal by reference ends as the reversal of what the lookup found; with a key that is not used
  // yet and nothing found it is refused, and nothing changes.
  method ReverseByReference(s: Session, rows: seq<Listed>, reference: string, user: Id, key: nat, digest: nat,
                            now: Instant, clockMs: int)
    returns (r: Outcome<Reply>)
    requires s.Valid() && Lists(rows, s.db.log)
    modifies s
    ensures var c := ReversalCommand(rows, reference, user, key, digest, clockMs, old(s.nextTx));
            s.Valid() && Ends(Verdict(s.p, old(s.db), c, old(s.nextTx), now), old(s.db), old(s.nextEntry), s.db, r)
    ensures FindByReference(rows, reference).None? && KeyR(user, key) !in old(s.db.rows) ==>
              r == Err(NotFound) && s.db == old(s.db)
  {
    var c := ReversalCommand(rows, reference, user, key, digest, clockMs, s.nextTx);
    r := s.ReverseTransfer(c, now);
    if FindByReference(rows, reference).None? && KeyR(user, key) !in old(s.db.rows) {
      UnlistedIsNotFound(s.p, old(s.db), c, old(s.nextTx), now);
    }
  }

  // A transfer that began just before midnight and was posted just after it cannot be reversed by its
  // reference, whoever asks and however soon.
  method MidnightCannotBeReversed(s: Session, rows: seq<Listed>, i: nat, posted: Instant, suffix: string, key: nat,
                                  digest: nat, now: Instant, clockMs: int)
    returns (r: Outcome<Reply>)
    requires s.Valid() && Lists(rows, s.db.log) && i < |rows| && Unshared(rows, i) && IsSuffix(suffix)
    requires rows[i].reference == PostedReference(posted, suffix) && 2000 <= FromDays(posted / DAY).year < 2100
    requires rows[i].transfer.createdAt / DAY < posted / DAY && KeyR(rows[i].transfer.from, key) !in s.db.rows
    modifies s
    ensures r == Err(NotFound) && s.db == old(s.db)
  {
    FoundOnItsDayIff(rows, i, posted, suffix);
    r := ReverseByReference(s, rows, rows[i].reference, rows[i].transfer.from, key, digest, now, clockMs);
  }
}
