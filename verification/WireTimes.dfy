// Timestamps as the text they are stored in, and the order of such texts.

module WireTimes {

  // UTC text down to the second, of fixed width, and a six-digit fraction that is left out when
  // it is zero. Only bounds are written with a zero fraction.
  datatype Text = Whole(sec: int) | Fraction(sec: int, micros: nat)

  predicate Written(t: Text) {
    t.Fraction? ==> 1 <= t.micros < 1_000_000
  }

  type Wire = t: Text | Written(t) witness Whole(0)

  // The instant, in microseconds.
  function Instant(t: Text): int {
    1_000_000 * t.sec + if t.Fraction? then t.micros else 0
  }

  function Digit(n: nat): char
    requires n < 10
  {
    ('0' as nat + n) as char
  }

  function Ten(width: nat): nat {
    if width == 0 then 1 else 10 * Ten(width - 1)
  }

  // A number with leading zeros.
  function Digits(n: nat, width: nat): string {
    if width == 0 then "" else Digits(n / 10, width - 1) + [Digit(n % 10)]
  }

  // What follows the second.
  function Tail(t: Text): string {
    match t
    case Whole(_) => "Z"
    case Fraction(_, m) => "." + Digits(m, 6) + "Z"
  }

  // The order of texts by code point.
  predicate Before(a: string, b: string) {
    b != [] && (a == [] || a[0] < b[0] || (a[0] == b[0] && Before(a[1..], b[1..])))
  }

  // Where a text stands among all of them: within a second, the one without a fraction is last.
  function Rank(t: Text): int {
    1_000_001 * t.sec + if t.Fraction? then t.micros else 1_000_000
  }

  predicate TextBefore(a: Text, b: Text) {
    Rank(a) < Rank(b)
  }

  lemma BeforeCons(x: char, a: string, y: char, b: string)
    ensures Before([x] + a, [y] + b) <==> x < y || (x == y && Before(a, b))
  {
    assert ([x] + a)[1..] == a && ([y] + b)[1..] == b;
  }

  // Numbers of one width are ordered as texts, whatever follows them.
  lemma {:induction false} DigitsOrder(m: nat, n: nat, width: nat, a: string, b: string)
    requires m < Ten(width) && n < Ten(width)
    ensures Before(Digits(m, width) + a, Digits(n, width) + b) <==> m < n || (m == n && Before(a, b))
    decreases width
  {
    if width == 0 {
      assert "" + a == a && "" + b == b;
    } else {
      var x, y := Digit(m % 10), Digit(n % 10);
      assert Digits(m, width) + a == Digits(m / 10, width - 1) + ([x] + a);
      assert Digits(n, width) + b == Digits(n / 10, width - 1) + ([y] + b);
      DigitsOrder(m / 10, n / 10, width - 1, [x] + a, [y] + b);
      BeforeCons(x, a, y, b);
    }
  }

  lemma FractionsOrder(m: nat, n: nat)
    requires m < 1_000_000 && n < 1_000_000
    ensures Before("." + Digits(m, 6) + "Z", "." + Digits(n, 6) + "Z") <==> m < n
  {
    var a, b := Digits(m, 6) + "Z", Digits(n, 6) + "Z";
    assert "." + Digits(m, 6) + "Z" == ['.'] + a && "." + Digits(n, 6) + "Z" == ['.'] + b;
    BeforeCons('.', a, '.', b);
    assert Ten(6) == 1_000_000;
    DigitsOrder(m, n, 6, "Z", "Z");
    BeforeCons('Z', "", 'Z', "");
  }

  // The rank orders the texts: by the second's text, then by what follows it.
  lemma RankIsTextOrder(a: Text, b: Text)
    requires a.Fraction? ==> a.micros < 1_000_000
    requires b.Fraction? ==> b.micros < 1_000_000
    ensures TextBefore(a, b) <==> a.sec < b.sec || (a.sec == b.sec && Before(Tail(a), Tail(b)))
  {
    if a.sec == b.sec {
      match (a, b)
      case (Whole(_), Whole(_)) => BeforeCons('Z', "", 'Z', "");
      case (Whole(_), Fraction(_, n)) => DifferentTails(n);
      case (Fraction(_, m), Whole(_)) => DifferentTails(m);
      case (Fraction(_, m), Fraction(_, n)) => FractionsOrder(m, n);
    }
  }

  lemma DifferentTails(m: nat)
    ensures Before("." + Digits(m, 6) + "Z", "Z") && !Before("Z", "." + Digits(m, 6) + "Z")
  {
    var a := Digits(m, 6) + "Z";
    assert "." + Digits(m, 6) + "Z" == ['.'] + a;
    BeforeCons('.', a, 'Z', "");
    BeforeCons('Z', "", '.', a);
  }

  // Text order is time order, except within a second between a text with a fraction and one
  // without: there the earlier instant has the later text.
  lemma TextOrderIsTimeOrderUnless(a: Wire, b: Wire)
    ensures (TextBefore(a, b) <==> Instant(a) < Instant(b)) <==> !(a.sec == b.sec && a.Whole? != b.Whole?)
  {
  }

  // ---- dates ---------------------------------------------------------------------------------------

  const DAY: int := 86_400

  // A date of a zone so many seconds ahead of UTC.
  datatype Date = Date(number: int, offset: int)

  function StartText(d: Date): Text {
    Fraction(d.number * DAY - d.offset, 0)
  }

  function EndText(d: Date): Text {
    Fraction((d.number + 1) * DAY - d.offset, 0)
  }

  // The query's condition compares texts, the filter after it parses the time.
  predicate InBounds(t: Text, d: Date) {
    !TextBefore(t, StartText(d)) && TextBefore(t, EndText(d))
  }

  predicate OnDate(t: Text, d: Date) {
    (t.sec + d.offset) / DAY == d.number
  }

  // For stored texts the two agree, with or without a fraction, at the bounds too.
  lemma BoundsAreTheDate(t: Wire, d: Date)
    ensures InBounds(t, d) <==> OnDate(t, d)
  {
    var local := t.sec + d.offset;
    assert local == DAY * (local / DAY) + local % DAY && 0 <= local % DAY < DAY;
  }
}
