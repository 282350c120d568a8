/** The payment resource and the resolution of its untyped fields
    (yookassa/payment/payment.go): the confirmation token and invoice id
    lookups, and the ordered conversion of the payment method into one of the
    three payment-method structs. */
module Payments {
  import opened Results
  import opened Json

  /** JSON key of the payment-method discriminator. */
  const TypeKey := "type"

  /** Discriminator value of a fast-payment-system (SBP) payment method. */
  const PaymentTypeSbp := "sbp"

  const ConfirmationTokenKey := "confirmation_token"
  const InvoiceIdKey := "invoice_id"

  /** The payment-method struct types a caller can ask for. */
  datatype Kind = BaseKind | CardKind | SbpKind

  /** The fields of a payment method other than its discriminator, kept as
      the JSON values they were decoded from. */
  type Fields = f: map<string, JValue> | TypeKey !in f witness map[]

  /** A value of one of the payment-method struct types: which type (`kind`),
      its `Type` discriminator field, and its remaining fields. */
  datatype PaymentMethod = PaymentMethod(kind: Kind, typeTag: string, rest: Fields)

  /** The dynamic value held by a Go `interface{}` field of a payment. */
  datatype Any =
    | Decoded(v: JValue)                 // as put there by encoding/json
    | MethodValue(m: PaymentMethod)      // a payment-method struct value
    | MethodPointer(m: PaymentMethod)    // a non-nil pointer to one
    | NilMethodPointer(kind: Kind)       // a nil pointer of a payment-method type
    | Foreign(typeName: ForeignTypeName) // a value of any other Go type

  /** The names `%T` prints for the shapes `Any` lists on their own; a value
      of any other Go type has some other name. */
  predicate IsListedTypeName(n: string) {
    || n in {"<nil>", "bool", "float64", "string", "[]interface {}", "map[string]interface {}"}
    || n in {StructName(BaseKind), StructName(CardKind), StructName(SbpKind)}
    || n in {"*" + StructName(BaseKind), "*" + StructName(CardKind), "*" + StructName(SbpKind)}
  }

  /** The Go type name of a value outside the listed shapes. */
  type ForeignTypeName = n: string | !IsListedTypeName(n) witness "map[string]string"

  /** The payment entity, reduced to its identifier and its untyped fields. */
  datatype Payment = Payment(id: string, paymentMethod: Any, confirmation: Any, metadata: Any)

  /** Each way a resolution can fail; the first four are the steps of a
      scalar lookup, the rest belong to the payment-method conversion. */
  datatype Error =
    | NotAMap(field: string, got: string)
    | KeyNotFound(key: string)
    | NotAString(key: string, got: string)
    | EmptyString(key: string)
    | UnsupportedPaymentMethod(got: string)
    | UnmarshalTypeMismatch(key: string, got: string)
    | NilPointerDereference
    | NotSbp(got: string)

  function StructName(k: Kind): string
  {
    match k
    case BaseKind => "yoopayment.BasePaymentMethod"
    case CardKind => "yoopayment.PaymentMethodWithCard"
    case SbpKind => "yoopayment.SBP"
  }

  /** The dynamic type of a value, as `%T` prints it. */
  function TypeNameOf(a: Any): string
  {
    match a
    case Decoded(v) => GoTypeName(v)
    case MethodValue(m) => StructName(m.kind)
    case MethodPointer(m) => "*" + StructName(m.kind)
    case NilMethodPointer(k) => "*" + StructName(k)
    case Foreign(name) => name
  }

  /** Holds when the dynamic type is `map[string]interface{}`. */
  predicate IsGenericMap(a: Any) {
    a.Decoded? && a.v.JObject?
  }

  // ---------------------------------------------------------------------
  // Scalar lookups: confirmation token and invoice id
  // ---------------------------------------------------------------------

  /** The five outcomes of looking up a non-empty string under `key` in the
      untyped value `a` (reported as `field` when it is not a map). */
  ghost predicate LookupOutcome(field: string, a: Any, key: string, r: Result<string, Error>)
  {
    && (!IsGenericMap(a) ==> r == Err(NotAMap(field, TypeNameOf(a))))
    && (IsGenericMap(a) && key !in a.v.fields ==> r == Err(KeyNotFound(key)))
    && (IsGenericMap(a) && key in a.v.fields && !a.v.fields[key].JString? ==>
          r == Err(NotAString(key, GoTypeName(a.v.fields[key]))))
    && (IsGenericMap(a) && key in a.v.fields && a.v.fields[key] == JString("") ==>
          r == Err(EmptyString(key)))
    && (IsGenericMap(a) && key in a.v.fields && a.v.fields[key].JString? && a.v.fields[key].s != "" ==>
          r == Ok(a.v.fields[key].s))
  }

  /** The checked lookup shared by both getters: is it a map, is the key
      present, is its value a string, is that string non-empty. */
  function LookupNonEmptyString(field: string, a: Any, key: string): (r: Result<string, Error>)
    ensures LookupOutcome(field, a, key, r)
    ensures r.Ok? ==> r.value != ""
  {
    if !IsGenericMap(a) then Err(NotAMap(field, TypeNameOf(a)))
    else if key !in a.v.fields then Err(KeyNotFound(key))
    else match a.v.fields[key]
      case JString(s) => if s == "" then Err(EmptyString(key)) else Ok(s)
      case other => Err(NotAString(key, GoTypeName(other)))
  }

  /** The confirmation token of a payment whose confirmation was decoded
      into a generic map. */
  function GetConfirmationToken(p: Payment): (r: Result<string, Error>)
    ensures LookupOutcome("confirmation", p.confirmation, ConfirmationTokenKey, r)
    ensures r.Ok? ==> r.value != ""
  {
    LookupNonEmptyString("confirmation", p.confirmation, ConfirmationTokenKey)
  }

  /** The `invoice_id` entry of a payment's metadata. */
  function GetInvoiceIdFromMetadata(p: Payment): (r: Result<string, Error>)
    ensures LookupOutcome("metadata", p.metadata, InvoiceIdKey, r)
    ensures r.Ok? ==> r.value != ""
  {
    LookupNonEmptyString("metadata", p.metadata, InvoiceIdKey)
  }

  /** Storing a non-empty string under a key of a decoded map and looking
      it up returns exactly that string. */
  lemma LookupReadsBackStoredString(field: string, f: map<string, JValue>, key: string, s: string)
    requires s != ""
    ensures LookupNonEmptyString(field, Decoded(JObject(f[key := JString(s)])), key) == Ok(s)
  {
  }

  /** Entries under other keys never influence a lookup. */
  lemma LookupIgnoresOtherKeys(field: string, f: map<string, JValue>, key: string, other: string, x: JValue)
    requires other != key
    ensures LookupNonEmptyString(field, Decoded(JObject(f[other := x])), key)
         == LookupNonEmptyString(field, Decoded(JObject(f)), key)
  {
  }

  /** A failed lookup names the step that failed, so that "absent", "wrong
      type" and "empty" are told apart from the error alone. */
  lemma LookupErrorIdentifiesStep(field: string, a: Any, key: string)
    ensures var r := LookupNonEmptyString(field, a, key);
      && (r.Err? && r.error.NotAMap? <==> !IsGenericMap(a))
      && (r.Err? && r.error.KeyNotFound? <==> IsGenericMap(a) && key !in a.v.fields)
      && (r.Err? && r.error.NotAString? <==>
            IsGenericMap(a) && key in a.v.fields && !a.v.fields[key].JString?)
      && (r.Err? && r.error.EmptyString? <==>
            IsGenericMap(a) && key in a.v.fields && a.v.fields[key] == JString(""))
  {
  }

  /** Four sample confirmations, one for each lookup outcome but "not a map". */
  lemma ConfirmationTokenSamples(id: string, pm: Any, md: Any)
    ensures GetConfirmationToken(Payment(id, pm, Decoded(JObject(map["confirmation_token" := JString("")])), md))
         == Err(EmptyString("confirmation_token"))
    ensures GetConfirmationToken(Payment(id, pm, Decoded(JObject(map[])), md))
         == Err(KeyNotFound("confirmation_token"))
    ensures GetConfirmationToken(Payment(id, pm, Decoded(JObject(map["confirmation_token" := JNumber(42)])), md))
         == Err(NotAString("confirmation_token", "float64"))
    ensures GetConfirmationToken(Payment(id, pm, Decoded(JObject(map["confirmation_token" := JString("tok_1")])), md))
         == Ok("tok_1")
  {
  }

  // ---------------------------------------------------------------------
  // Payment-method conversion
  // ---------------------------------------------------------------------

  /** The shapes `convertPaymentMethod` accepts for target type `k`: a
      pointer to `k`, a value of `k`, or a generic map. */
  predicate Convertible(a: Any, k: Kind) {
    match a
    case MethodPointer(m) => m.kind == k
    case NilMethodPointer(k') => k' == k
    case MethodValue(m) => m.kind == k
    case Decoded(v) => v.JObject?
    case Foreign(_) => false
  }

  /** Decoding the re-encoded generic map into the struct of type `k`: the
      `type` entry fills the discriminator (a JSON null or an absent key
      leaves it empty, any other non-string is a type error), and every other
      entry is kept. */
  function DecodeMethod(f: map<string, JValue>, k: Kind): (r: Result<PaymentMethod, Error>)
    ensures r.Ok? <==> TypeKey !in f || f[TypeKey].JString? || f[TypeKey].JNull?
    ensures r.Ok? ==> r.value.kind == k && r.value.rest == f - {TypeKey}
    ensures r.Ok? ==> r.value.typeTag == (if TypeKey in f && f[TypeKey].JString? then f[TypeKey].s else "")
    ensures r.Err? ==> r.error == UnmarshalTypeMismatch(TypeKey, JsonKind(f[TypeKey]))
  {
    var rest: Fields := f - {TypeKey};
    if TypeKey !in f then Ok(PaymentMethod(k, "", rest))
    else match f[TypeKey]
      case JString(s) => Ok(PaymentMethod(k, s, rest))
      case JNull => Ok(PaymentMethod(k, "", rest))
      case other => Err(UnmarshalTypeMismatch(TypeKey, JsonKind(other)))
  }

  /** The JSON object a payment-method struct encodes to. */
  function EncodeMethod(m: PaymentMethod): (f: map<string, JValue>)
    ensures TypeKey in f && f[TypeKey] == JString(m.typeTag)
    ensures f - {TypeKey} == m.rest
  {
    m.rest[TypeKey := JString(m.typeTag)]
  }

  /** `convertPaymentMethod[T]`: a pointer to `T` is dereferenced, a `T` is
      returned as it is, a generic map is decoded into `T`, and anything else
      is an unsupported type. A nil pointer to `T`, on which Go panics, is
      the `NilPointerDereference` error. */
  function ConvertPaymentMethod(a: Any, k: Kind): (r: Result<PaymentMethod, Error>)
    ensures r.Ok? ==> r.value.kind == k
    ensures (a.MethodPointer? || a.MethodValue?) && a.m.kind == k ==> r == Ok(a.m)
    ensures a == NilMethodPointer(k) ==> r == Err(NilPointerDereference)
    ensures IsGenericMap(a) ==> r == DecodeMethod(a.v.fields, k)
    ensures !Convertible(a, k) <==> r.Err? && r.error.UnsupportedPaymentMethod?
    ensures !Convertible(a, k) ==> r.error.got == TypeNameOf(a)
  {
    match a
    case MethodPointer(m) =>
      if m.kind == k then Ok(m) else Err(UnsupportedPaymentMethod(TypeNameOf(a)))
    case NilMethodPointer(k') =>
      if k' == k then Err(NilPointerDereference) else Err(UnsupportedPaymentMethod(TypeNameOf(a)))
    case MethodValue(m) =>
      if m.kind == k then Ok(m) else Err(UnsupportedPaymentMethod(TypeNameOf(a)))
    case Decoded(JObject(f)) => DecodeMethod(f, k)
    case _ => Err(UnsupportedPaymentMethod(TypeNameOf(a)))
  }

  function GetBasePaymentMethod(p: Payment): (r: Result<PaymentMethod, Error>)
    ensures r.Ok? ==> r.value.kind == BaseKind
    ensures var a := p.paymentMethod; (a.MethodPointer? || a.MethodValue?) && a.m.kind == BaseKind ==> r == Ok(a.m)
    ensures p.paymentMethod.Decoded? && p.paymentMethod.v.JObject? ==> r == DecodeMethod(p.paymentMethod.v.fields, BaseKind)
    ensures p.paymentMethod == NilMethodPointer(BaseKind) ==> r == Err(NilPointerDereference)
    ensures !Convertible(p.paymentMethod, BaseKind) <==> r.Err? && r.error.UnsupportedPaymentMethod?
    ensures !Convertible(p.paymentMethod, BaseKind) ==> r.error.got == TypeNameOf(p.paymentMethod)
  {
    ConvertPaymentMethod(p.paymentMethod, BaseKind)
  }

  function GetPaymentMethodWithCard(p: Payment): (r: Result<PaymentMethod, Error>)
    ensures r.Ok? ==> r.value.kind == CardKind
    ensures var a := p.paymentMethod; (a.MethodPointer? || a.MethodValue?) && a.m.kind == CardKind ==> r == Ok(a.m)
    ensures p.paymentMethod.Decoded? && p.paymentMethod.v.JObject? ==> r == DecodeMethod(p.paymentMethod.v.fields, CardKind)
    ensures p.paymentMethod == NilMethodPointer(CardKind) ==> r == Err(NilPointerDereference)
    ensures !Convertible(p.paymentMethod, CardKind) <==> r.Err? && r.error.UnsupportedPaymentMethod?
    ensures !Convertible(p.paymentMethod, CardKind) ==> r.error.got == TypeNameOf(p.paymentMethod)
  {
    ConvertPaymentMethod(p.paymentMethod, CardKind)
  }

  /** The SBP payment method: the conversion's error is passed on as it is,
      and a converted value whose discriminator is not "sbp" is rejected. */
  function GetPaymentMethodSbp(p: Payment): (r: Result<PaymentMethod, Error>)
    ensures var c := ConvertPaymentMethod(p.paymentMethod, SbpKind);
      && (c.Err? ==> r == c)
      && (c.Ok? && c.value.typeTag != PaymentTypeSbp ==> r == Err(NotSbp(c.value.typeTag)))
      && (r.Ok? <==> c.Ok? && c.value.typeTag == PaymentTypeSbp)
      && (r.Ok? ==> r.value == c.value)
    ensures r.Ok? ==> r.value.kind == SbpKind && r.value.typeTag == PaymentTypeSbp
  {
    var m :- ConvertPaymentMethod(p.paymentMethod, SbpKind);
    if m.typeTag != PaymentTypeSbp then Err(NotSbp(m.typeTag)) else Ok(m)
  }

  /** Encoding a payment method and resolving the resulting generic map as
      the same type gives back the method, every field unchanged. */
  lemma ResolveEncodedMethod(m: PaymentMethod)
    ensures ConvertPaymentMethod(Decoded(JObject(EncodeMethod(m))), m.kind) == Ok(m)
  {
  }

  /** A generic map tagged "bank_card" is never resolved as an SBP method. */
  lemma SbpRejectsCardTag(id: string, f: map<string, JValue>, conf: Any, md: Any)
    ensures GetPaymentMethodSbp(Payment(id, Decoded(JObject(f[TypeKey := JString("bank_card")])), conf, md))
         == Err(NotSbp("bank_card"))
  {
  }

  /** A generic map tagged "sbp" always resolves as an SBP method. */
  lemma SbpAcceptsSbpTag(id: string, f: map<string, JValue>, conf: Any, md: Any)
    ensures GetPaymentMethodSbp(Payment(id, Decoded(JObject(f[TypeKey := JString(PaymentTypeSbp)])), conf, md)).Ok?
  {
  }
}
