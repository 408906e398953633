/** The pure helpers of
    src/app/features/stock/stock-movements-history/stock-movements-history.component.ts:
    the CSS class and the signed quantity shown per movement, and the
    `productId` query parameter that filters the list. */
module MovementHistory {
  import opened Models
  import opened Text

  /** `getMovementTypeClass`. */
  function MovementTypeClass(t: MovementType): (cls: string)
    ensures cls == "text-success" <==> t == Entrada
    ensures cls == "text-primary" <==> t == AjusteInicial
    ensures cls == "text-danger" <==> t == Salida
    ensures cls == "text-warning" <==> t == Correccion
  {
    match t
    case Entrada => "text-success"
    case AjusteInicial => "text-primary"
    case Salida => "text-danger"
    case Correccion => "text-warning"
  }

  /** Every movement type gets its own, non-empty class. */
  lemma MovementTypeClassDistinct(a: MovementType, b: MovementType)
    ensures MovementTypeClass(a) != ""
    ensures MovementTypeClass(a) == MovementTypeClass(b) <==> a == b
  {
  }

  /** `Math.abs`. */
  function Abs(q: int): (m: nat)
    ensures m == q || m == -q
  {
    if q < 0 then -q else q
  }

  /** `getQuantityDisplay`: a minus sign and the magnitude for a SALIDA or a
      negative CORRECCION; otherwise '+' followed by `${quantityChanged}`. */
  function QuantityDisplay(m: StockMovement): (shown: string)
    ensures |shown| >= 2 && (shown[0] == '+' || shown[0] == '-')
    ensures shown[0] == '-' <==>
      m.movementType == Salida || (m.movementType == Correccion && m.quantityChanged < 0)
  {
    if m.movementType == Salida || (m.movementType == Correccion && m.quantityChanged < 0) then
      "-" + NatToString(Abs(m.quantityChanged))
    else
      "+" + IntToString(m.quantityChanged)
  }

  /** Reads back a display string of the form sign + digits: the signed
      value it shows, or `None` when it is not of that form. */
  function ShownValue(shown: string): (v: Option<int>)
  {
    if |shown| >= 2 && shown[0] in {'+', '-'} && IsDigits(shown[1..]) then
      var magnitude: int := ParseNat(shown[1..]);
      Some(if shown[0] == '-' then -magnitude else magnitude)
    else None
  }

  /** What the display shows for each movement type: a SALIDA always shows
      minus its magnitude, whatever the stored sign; a CORRECCION shows its
      true signed value; an ENTRADA or AJUSTE_INICIAL shows its value when
      it is non-negative and "+-n" (not a plain signed number) when it is
      negative. */
  lemma QuantityDisplayReadsBack(m: StockMovement)
    ensures m.movementType == Salida ==> ShownValue(QuantityDisplay(m)) == Some(-(Abs(m.quantityChanged) as int))
    ensures m.movementType == Correccion ==> ShownValue(QuantityDisplay(m)) == Some(m.quantityChanged)
    ensures m.movementType in {Entrada, AjusteInicial} && m.quantityChanged >= 0 ==>
      ShownValue(QuantityDisplay(m)) == Some(m.quantityChanged)
    ensures m.movementType in {Entrada, AjusteInicial} && m.quantityChanged < 0 ==>
      QuantityDisplay(m) == "+-" + NatToString(-m.quantityChanged) &&
      ShownValue(QuantityDisplay(m)) == None
  {
    var q := m.quantityChanged;
    var shown := QuantityDisplay(m);
    ParseNatToString(Abs(q));
    if m.movementType == Salida || (m.movementType == Correccion && q < 0) {
      assert shown[1..] == NatToString(Abs(q));
    } else if q >= 0 {
      assert shown[1..] == NatToString(q);
    } else {
      assert shown[1] == '-';
      assert !IsDigit(shown[1..][0]);
    }
  }

  /** The product filter read from the URL. `Unparsed` stands for the
      value of `+param` on a string that is not a plain run of decimal
      digits (signs, spaces, fractions, exponents, hex, or garbage giving
      NaN), which this model does not evaluate. */
  datatype ProductFilter = NoFilter | ByProduct(productId: nat) | Unparsed(param: string)

  /** `productIdParam ? +productIdParam : null`. */
  function ParseProductIdParam(param: Option<string>): (f: ProductFilter)
    ensures f == NoFilter <==> param.None? || param.value == ""
    ensures f.ByProduct? <==> param.Some? && param.value != "" && IsDigits(param.value)
    ensures f.ByProduct? ==> f.productId == ParseNat(param.value)
    ensures f.Unparsed? <==> param.Some? && param.value != "" && !IsDigits(param.value)
  {
    if param.None? || param.value == "" then NoFilter
    else if IsDigits(param.value) then ByProduct(ParseNat(param.value))
    else Unparsed(param.value)
  }

  /** A product id written into the URL in decimal comes back as the same
      id, 0 included. */
  lemma ProductIdParamRoundTrip(id: nat)
    ensures ParseProductIdParam(Some(NatToString(id))) == ByProduct(id)
  {
    ParseNatToString(id);
  }
}
