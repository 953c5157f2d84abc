/**
 * Kubernetes CPU usage strings as the metrics view reads them: the last
 * character selects the unit (`n` nanocores, `u` microcores, `m`
 * millicores, anything else whole cores) and the rest goes through
 * Python's `int()`. Amounts are exact reals; the view's float division is
 * not modelled.
 */
module CpuQuantity {
  import opened Wrappers
  import PyInt

  datatype CpuUnit = Nanocores | Microcores | Millicores | Cores

  /** A CPU amount as an integer count of some unit. */
  datatype Quantity = Quantity(amount: int, unit: CpuUnit)

  /** The amount in millicores: 1 core = 1000m = 1,000,000u = 1,000,000,000n. */
  function InMillicores(q: Quantity): real
  {
    match q.unit
    case Nanocores => q.amount as real / 1000000.0
    case Microcores => q.amount as real / 1000.0
    case Millicores => q.amount as real
    case Cores => (q.amount * 1000) as real
  }

  function Suffix(u: CpuUnit): string
  {
    match u
    case Nanocores => "n"
    case Microcores => "u"
    case Millicores => "m"
    case Cores => ""
  }

  /** The usage string a metrics server reports for `q`. */
  function Render(q: Quantity): string
  {
    PyInt.Format(q.amount) + Suffix(q.unit)
  }

  /** The unit a usage string names by its final character. */
  function UnitOf(usage: string): CpuUnit
  {
    if |usage| == 0 then Cores
    else if usage[|usage| - 1] == 'n' then Nanocores
    else if usage[|usage| - 1] == 'u' then Microcores
    else if usage[|usage| - 1] == 'm' then Millicores
    else Cores
  }

  /** The part of a usage string that is handed to `int()`. */
  function AmountText(usage: string): string
  {
    if UnitOf(usage) == Cores then usage else usage[..|usage| - 1]
  }

  /** Splits a usage string into amount and unit; `None` when `int()` fails. */
  function ParseQuantity(usage: string): (r: Option<Quantity>)
    ensures r.Some? ==> r.value.unit == UnitOf(usage)
    ensures r.Some? <==> PyInt.ParseInt(AmountText(usage)).Some?
    ensures r.Some? ==> r.value.amount == PyInt.ParseInt(AmountText(usage)).value
  {
    match PyInt.ParseInt(AmountText(usage))
    case None => None
    case Some(v) => Some(Quantity(v, UnitOf(usage)))
  }

  /**
   * The millicores one container's usage string stands for; `None` is the
   * `ValueError` raised when the amount is not an integer.
   */
  function ToMillicores(usage: string): Option<real>
  {
    match ParseQuantity(usage)
    case None => None
    case Some(q) => Some(InMillicores(q))
  }

  /**
   * The conversion by final character: `n` divides the integer amount by
   * 1,000,000, `u` by 1,000, `m` keeps it, and any other ending reads the
   * whole string as cores and multiplies by 1,000; an amount `int()`
   * rejects yields no value.
   */
  lemma ToMillicoresBySuffix(usage: string)
    ensures |usage| > 0 && usage[|usage| - 1] == 'n' ==>
              match PyInt.ParseInt(usage[..|usage| - 1])
              case Some(v) => ToMillicores(usage) == Some(v as real / 1000000.0)
              case None => ToMillicores(usage) == None
    ensures |usage| > 0 && usage[|usage| - 1] == 'u' ==>
              match PyInt.ParseInt(usage[..|usage| - 1])
              case Some(v) => ToMillicores(usage) == Some(v as real / 1000.0)
              case None => ToMillicores(usage) == None
    ensures |usage| > 0 && usage[|usage| - 1] == 'm' ==>
              match PyInt.ParseInt(usage[..|usage| - 1])
              case Some(v) => ToMillicores(usage) == Some(v as real)
              case None => ToMillicores(usage) == None
    ensures (|usage| == 0 || usage[|usage| - 1] !in "num") ==>
              match PyInt.ParseInt(usage)
              case Some(v) => ToMillicores(usage) == Some((v * 1000) as real)
              case None => ToMillicores(usage) == None
  {
  }

  /** Reading back a rendered quantity recovers it. */
  lemma ParseRender(q: Quantity)
    ensures ParseQuantity(Render(q)) == Some(q)
  {
    var s := Render(q);
    var f := PyInt.Format(q.amount);
    PyInt.ParseFormat(q.amount);
    match q.unit
    case Cores =>
      assert s == f;
      assert UnitOf(s) == Cores;
    case Nanocores =>
      assert s[..|s| - 1] == f;
      assert UnitOf(s) == Nanocores;
    case Microcores =>
      assert s[..|s| - 1] == f;
      assert UnitOf(s) == Microcores;
    case Millicores =>
      assert s[..|s| - 1] == f;
      assert UnitOf(s) == Millicores;
  }

  /** A rendered quantity converts to exactly its amount in millicores. */
  lemma ToMillicoresRender(q: Quantity)
    ensures ToMillicores(Render(q)) == Some(InMillicores(q))
  {
    ParseRender(q);
  }

  /**
   * The strings the view meets that `int()` rejects: the "N/A" placeholder
   * for a missing cpu key, a bare unit letter, a decimal amount and the
   * empty string.
   */
  lemma RejectedUsages()
    ensures ToMillicores("N/A") == None
    ensures ToMillicores("m") == None
    ensures ToMillicores("n") == None
    ensures ToMillicores("1.5") == None
    ensures ToMillicores("") == None
  {
    assert !PyInt.IsDigit("N/A"[1]);
    assert !PyInt.IsDigit("1.5"[1]);
  }

  /** Typical metrics-server readings. */
  lemma AcceptedUsages()
    ensures ToMillicores("250m") == Some(250.0)
    ensures ToMillicores("2") == Some(2000.0)
    ensures ToMillicores("500n") == Some(0.0005)
    ensures ToMillicores("750u") == Some(0.75)
  {
    DecimalSamples();
    ToMillicoresRender(Quantity(250, Millicores));
    assert Render(Quantity(250, Millicores)) == "250m";
    ToMillicoresRender(Quantity(2, Cores));
    assert Render(Quantity(2, Cores)) == "2";
    ToMillicoresRender(Quantity(500, Nanocores));
    assert Render(Quantity(500, Nanocores)) == "500n";
    ToMillicoresRender(Quantity(750, Microcores));
    assert Render(Quantity(750, Microcores)) == "750u";
  }

  lemma DecimalSamples()
    ensures PyInt.Format(2) == "2"
    ensures PyInt.Format(250) == "250"
    ensures PyInt.Format(500) == "500"
    ensures PyInt.Format(750) == "750"
  {
    assert PyInt.Digits(25) == "25";
    assert PyInt.Digits(50) == "50";
    assert PyInt.Digits(75) == "75";
  }
}
