/**
 * What the older site-specific scrapers (the three `scrap` functions under
 * `notproj/`) share: the parts of a fetched page their selectors return,
 * the `Notification` rows they create and the loop that creates them, the
 * message reporting how many were saved, the outcome of a call, and the
 * `'%Y%m%d'` reading of dates embedded in PDF file names.
 */
module LegacyRecords {
  import opened Options
  import opened Text

  /** A `datetime`; only the fields the scrapers can set. */
  datatype DateTime = DateTime(year: nat, month: nat, day: nat, hour: nat, minute: nat, second: nat)

  /** A `Notification` row as the scrapers create it. */
  datatype Record = Record(title: string, url: string, publishedAt: Option<DateTime>)

  /** How a call to `scrap` ends: it returns a message, returns `None`, or raises. */
  datatype ScrapOutcome = Returned(message: string) | ReturnedNone | Raised

  /** A `datetime.strptime` with a format whose general semantics are not modelled: an oracle. */
  type DateParser = string -> Option<DateTime>

  /** `urljoin(base, href)`: an oracle. */
  type UrlJoin = (string, string) -> string

  const CusUrl := "https://www.cusrinagar.edu.in/Notification/" + "NotificationListPartial"
  const CusBase := "https://www.cusrinagar.edu.in"
  const NtaUrl := "https://www.nta.ac.in/NoticeBoardArchive"
  const NtaBase := "https://www.nta.ac.in"

  /** The `Notification` table: rows in creation order. */
  class NotificationTable {
    var rows: seq<Record>

    constructor (initial: seq<Record>)
      ensures rows == initial
    {
      rows := initial;
    }

    /** `Notification.objects.create(...)`: the row is appended. */
    method Create(r: Record)
      modifies this
      ensures rows == old(rows) + [r]
    {
      rows := rows + [r];
    }
  }

  /** An anchor matched by `find_all('a', title=True)`: its `title`, its `href` and its `data-published`, when present. */
  datatype TitledAnchor = TitledAnchor(title: string, href: Option<string>, published: Option<string>)

  /** An anchor matched by `find_all('a', href=True)`: its text (`get_text(strip=True)`) and its `href`. */
  datatype Anchor = Anchor(text: string, href: string)

  /** A table cell: its stripped text and its first anchor with a `title`, if any. */
  datatype Cell = Cell(text: string, titledLink: Option<TitledAnchor>)

  /** A `tbody tr` row. */
  datatype Row = Row(cells: seq<Cell>)

  /** A `content` element with the title style: its stripped text and the `href` of its first anchor, if any. */
  datatype Content = Content(text: string, firstAnchor: Option<Option<string>>)

  /** What a fetched page yields to the selectors the scrapers use, in document order. */
  datatype Soup = Soup(rows: seq<Row>, titledAnchors: seq<TitledAnchor>, hrefAnchors: seq<Anchor>,
                       contents: seq<Content>)

  /** `href.strip().lower().endswith('.pdf')`. */
  predicate IsPdfHref(a: Anchor) {
    EndsWith(Lower(Strip(a.href)), ".pdf")
  }

  /** The URL of an NTA link: the stripped `href` joined to the base, or "" when it is blank. */
  function NtaUrlOf(a: Anchor, join: UrlJoin): string {
    var href := Strip(a.href);
    if href != "" then join(NtaBase, href) else ""
  }

  /** The elements of `s` that satisfy `p`, in order. */
  function Filter<T>(s: seq<T>, p: T -> bool): (r: seq<T>)
    ensures |r| <= |s|
    ensures forall k :: 0 <= k < |r| ==> p(r[k]) && r[k] in s
    ensures r == [] <==> forall k :: 0 <= k < |s| ==> !p(s[k])
  {
    if s == [] then []
    else (if p(s[0]) then [s[0]] else []) + Filter(s[1..], p)
  }

  /** Filtering keeps order and multiplicity: it distributes over concatenation. */
  lemma {:induction false} FilterAppend<T>(a: seq<T>, b: seq<T>, p: T -> bool)
    ensures Filter(a + b, p) == Filter(a, p) + Filter(b, p)
    decreases |a|
  {
    if a != [] {
      assert (a + b)[1..] == a[1..] + b;
      FilterAppend(a[1..], b, p);
    } else {
      assert a + b == b;
    }
  }

  /** Every element of `s` that satisfies `p` is kept. */
  lemma {:induction false} FilterComplete<T>(s: seq<T>, p: T -> bool, k: nat)
    requires k < |s| && p(s[k])
    ensures s[k] in Filter(s, p)
  {
    if k > 0 {
      FilterComplete(s[1..], p, k - 1);
    }
  }

  /** `s[:n]`. */
  function Take<T>(s: seq<T>, n: nat): (r: seq<T>)
    ensures |r| == if |s| < n then |s| else n
    ensures r == s[..|r|]
  {
    if |s| < n then s else s[..n]
  }

  /**
   * The rows a loop over `items` creates from the `i`-th item on: one per
   * item, up to the first item whose row cannot be built, where the loop
   * raises.
   */
  function Saved<T>(items: seq<T>, i: nat, make: T -> Option<Record>): seq<Record>
    requires i <= |items|
    decreases |items| - i
  {
    if i == |items| then []
    else match make(items[i])
      case None => []
      case Some(r) => [r] + Saved(items, i + 1, make)
  }

  /** Some item from the `i`-th on makes the loop raise. */
  predicate RaisesFrom<T>(items: seq<T>, i: nat, make: T -> Option<Record>) {
    exists k :: i <= k < |items| && make(items[k]).None?
  }

  /** Without a raise, the loop creates exactly one row per item, each the item's row. */
  lemma {:induction false} SavedEach<T>(items: seq<T>, i: nat, make: T -> Option<Record>)
    requires i <= |items| && !RaisesFrom(items, i, make)
    ensures |Saved(items, i, make)| == |items| - i
    ensures forall k :: i <= k < |items| ==> Saved(items, i, make)[k - i] == make(items[k]).value
    decreases |items| - i
  {
    if i < |items| {
      assert make(items[i]).Some?;
      SavedEach(items, i + 1, make);
      var rest := Saved(items, i + 1, make);
      assert Saved(items, i, make) == [make(items[i]).value] + rest;
      forall k | i < k < |items|
        ensures Saved(items, i, make)[k - i] == make(items[k]).value
      {
        assert Saved(items, i, make)[k - i] == rest[k - i - 1];
      }
    }
  }

  /** A raise at the `j`-th item leaves exactly the rows of the items before it. */
  lemma {:induction false} SavedUpToRaise<T>(items: seq<T>, i: nat, j: nat, make: T -> Option<Record>)
    requires i <= j < |items| && make(items[j]).None?
    requires forall k :: i <= k < j ==> make(items[k]).Some?
    ensures |Saved(items, i, make)| == j - i
    ensures forall k :: i <= k < j ==> Saved(items, i, make)[k - i] == make(items[k]).value
    decreases j - i
  {
    if i < j {
      SavedUpToRaise(items, i + 1, j, make);
    }
  }

  /**
   * The `for` loops of the scrapers: each item's row is built (which may
   * raise) and created, and `count` goes up by one.
   */
  method SaveAll<T>(table: NotificationTable, items: seq<T>, make: T -> Option<Record>)
    returns (count: nat, raised: bool)
    modifies table
    ensures raised == RaisesFrom(items, 0, make)
    ensures table.rows == old(table.rows) + Saved(items, 0, make)
    ensures count == |Saved(items, 0, make)|
  {
    count, raised := 0, false;
    var i := 0;
    while i < |items|
      invariant 0 <= i <= |items| && count == i
      invariant forall k :: 0 <= k < i ==> make(items[k]).Some?
      invariant table.rows + Saved(items, i, make) == old(table.rows) + Saved(items, 0, make)
      invariant |table.rows| == |old(table.rows)| + i
    {
      var r := make(items[i]);
      if r.None? {
        raised := true;
        assert table.rows == old(table.rows) + Saved(items, 0, make);
        return;
      }
      ghost var before := table.rows;
      table.Create(r.value);
      assert before + Saved(items, i, make) == before + ([r.value] + Saved(items, i + 1, make));
      assert table.rows + Saved(items, i + 1, make) == before + ([r.value] + Saved(items, i + 1, make));
      count, i := count + 1, i + 1;
    }
  }

  const SavedPrefix := "Scraped and saved "
  const SavedMiddle := " notifications from "

  /** `f"Scraped and saved {count} notifications from {url}"`. */
  function SavedMessage(count: nat, url: string): string {
    SavedPrefix + NatToString(count) + SavedMiddle + url
  }

  /** The message determines the count it reports. */
  lemma SavedMessageCount(a: nat, b: nat, url: string)
    requires SavedMessage(a, url) == SavedMessage(b, url)
    ensures a == b
  {
    var sa, sb := NatToString(a), NatToString(b);
    var m := SavedMessage(a, url);
    assert |sa| == |sb|;
    assert m[|SavedPrefix|..|SavedPrefix| + |sa|] == sa;
    assert SavedMessage(b, url)[|SavedPrefix|..|SavedPrefix| + |sb|] == sb;
  }

  /** Gregorian leap years. */
  predicate IsLeap(y: nat) {
    y % 4 == 0 && (y % 100 != 0 || y % 400 == 0)
  }

  /** The number of days in month `m` of year `y`. */
  function DaysIn(y: nat, m: nat): (r: nat)
    requires 1 <= m <= 12
    ensures 28 <= r <= 31
  {
    if m == 2 then (if IsLeap(y) then 29 else 28)
    else if m == 4 || m == 6 || m == 9 || m == 11 then 30
    else 31
  }

  /** A calendar date `datetime` accepts, at midnight. */
  predicate ValidYmd(d: DateTime) {
    1 <= d.year <= 9999 && 1 <= d.month <= 12 && 1 <= d.day <= DaysIn(d.year, d.month) &&
    d.hour == 0 && d.minute == 0 && d.second == 0
  }

  predicate AllDigits(s: string) {
    forall i :: 0 <= i < |s| ==> IsDigit(s[i])
  }

  function Pow10(w: nat): (r: nat)
    ensures r >= 1
  {
    if w == 0 then 1 else 10 * Pow10(w - 1)
  }

  /** `n` written with exactly `w` decimal digits, zero-padded (and cut to its last `w` digits). */
  function Digits(n: nat, w: nat): (r: string)
    ensures |r| == w && AllDigits(r)
  {
    if w == 0 then [] else Digits(n / 10, w - 1) + [DigitChar(n % 10)]
  }

  /** Euclidean division is determined by quotient and remainder. */
  lemma DivModUnique(n: int, m: int, a: int, r: int)
    requires m > 0 && n == m * a + r && 0 <= r < m
    ensures n % m == r
  {
    var k := a - n / m;
    assert m * k == n % m - r;
  }

  lemma ModOfSplit(n: nat, q: nat, p: nat, b: nat, d: nat)
    requires p >= 1 && n == 10 * q + d && d < 10 && q % p == b
    ensures n % (10 * p) == 10 * b + d
  {
    var a := q / p;
    assert q == p * a + b;
    assert n == (10 * p) * a + (10 * b + d);
    DivModUnique(n, 10 * p, a, 10 * b + d);
  }

  /** The digits of `n` denote `n` modulo the width's power of ten. */
  lemma {:induction false} DigitsValueOfDigits(n: nat, w: nat)
    ensures DigitsValue(Digits(n, w)) == n % Pow10(w)
  {
    if w > 0 {
      var r := Digits(n, w);
      assert r[..w - 1] == Digits(n / 10, w - 1);
      DigitsValueOfDigits(n / 10, w - 1);
      ModOfSplit(n, n / 10, Pow10(w - 1), (n / 10) % Pow10(w - 1), n % 10);
    }
  }

  /** Writing a digit string's value back with its width gives the string. */
  lemma {:induction false} DigitsOfValue(s: string)
    requires AllDigits(s)
    ensures Digits(DigitsValue(s), |s|) == s
  {
    if s != [] {
      var n := |s| - 1;
      var front, d := DigitsValue(s[..n]), DigitValue(s[n]);
      DigitsOfValue(s[..n]);
      LastDigit(front, d);
      assert Digits(front * 10 + d, n + 1) == Digits(front, n) + [DigitChar(d)];
      assert s == s[..n] + [s[n]];
    }
  }

  /** Appending the digit `d` to `a` gives a number whose quotient by ten is `a` and whose last digit is `d`. */
  lemma LastDigit(a: nat, d: nat)
    requires d < 10
    ensures (a * 10 + d) / 10 == a && (a * 10 + d) % 10 == d
  {
    DivModUnique(a * 10 + d, 10, a, d);
  }

  /** `strftime('%Y%m%d')`. */
  function FormatYmd(d: DateTime): string {
    Digits(d.year, 4) + Digits(d.month, 2) + Digits(d.day, 2)
  }

  /**
   * `datetime.strptime(s, '%Y%m%d')` on eight ASCII digits: the month and
   * the day must each be written with two digits and the date must exist
   * (a single-digit month or day would leave digits unconverted).
   */
  function ParseYmd8(s: string): (r: Option<DateTime>)
    requires |s| == 8 && AllDigits(s)
    ensures r.Some? ==> ValidYmd(r.value)
  {
    var y, m, d := DigitsValue(s[..4]), DigitsValue(s[4..6]), DigitsValue(s[6..]);
    DigitsBound(s[..4]);
    assert Pow10(4) == 10000;
    if 1 <= y && 1 <= m <= 12 && 1 <= d <= DaysIn(y, m) then Some(DateTime(y, m, d, 0, 0, 0)) else None
  }

  /**
   * `datetime.strptime(s, '%Y%m%d')` with its exception caught: eight
   * digits are read as above; shorter forms are left to `other`.
   */
  function ParseYmd(s: string, other: DateParser): Option<DateTime> {
    if |s| == 8 && AllDigits(s) then ParseYmd8(s) else other(s)
  }

  lemma DigitsBound(s: string)
    requires AllDigits(s)
    ensures DigitsValue(s) < Pow10(|s|)
  {
    DigitsOfValue(s);
    DigitsValueOfDigits(DigitsValue(s), |s|);
  }

  lemma FormatYmdFields(d: DateTime)
    ensures var s := FormatYmd(d);
      |s| == 8 && AllDigits(s) &&
      s[..4] == Digits(d.year, 4) && s[4..6] == Digits(d.month, 2) && s[6..] == Digits(d.day, 2)
  {
    var a, b, c := Digits(d.year, 4), Digits(d.month, 2), Digits(d.day, 2);
    var s := a + b + c;
    assert s[..4] == a;
    assert s[4..6] == b;
    assert s[6..] == c;
  }

  /** Every valid date survives formatting and parsing. */
  lemma YmdRoundTrip(d: DateTime, other: DateParser)
    requires ValidYmd(d)
    ensures ParseYmd(FormatYmd(d), other) == Some(d)
  {
    var s := FormatYmd(d);
    FormatYmdFields(d);
    DigitsValueOfDigits(d.year, 4);
    DigitsValueOfDigits(d.month, 2);
    DigitsValueOfDigits(d.day, 2);
    assert Pow10(4) == 10000 && Pow10(2) == 100;
    DivModUnique(d.year, 10000, 0, d.year);
    DivModUnique(d.month, 100, 0, d.month);
    DivModUnique(d.day, 100, 0, d.day);
    assert DigitsValue(s[..4]) == d.year && DigitsValue(s[4..6]) == d.month && DigitsValue(s[6..]) == d.day;
    assert ParseYmd8(s) == Some(d);
  }

  /** An eight-digit string that parses is the formatting of the date read. */
  lemma YmdParsedFormats(s: string, other: DateParser)
    requires |s| == 8 && AllDigits(s) && ParseYmd(s, other).Some?
    ensures ValidYmd(ParseYmd(s, other).value)
    ensures FormatYmd(ParseYmd(s, other).value) == s
  {
    DigitsOfValue(s[..4]);
    DigitsOfValue(s[4..6]);
    DigitsOfValue(s[6..]);
    assert s == s[..4] + s[4..6] + s[6..];
  }
}
