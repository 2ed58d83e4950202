/** The inbound `new-orders` payload: the records NewOrderMessage and
    NewOrderMessage.NewOrderCustomer, and how Jackson binds a JSON object to
    them with unknown properties ignored at both levels. The JSON text
    parser itself is not modelled here; decoding starts from a parsed value. */
module NewOrderMessages {
  import opened Common

  /** A parsed JSON value. */
  datatype Value =
    | Null
    | Bool(b: bool)
    | Num(n: int)
    | Str(s: string)
    | Arr(items: seq<Value>)
    | Obj(fields: map<string, Value>)

  datatype NewOrderCustomer = NewOrderCustomer(name: Option<string>, email: Option<string>, phone: Option<string>)

  /** `customer` is a nullable reference; `quantity` is a Java int. */
  datatype NewOrderMessage = NewOrderMessage(
    orderNumber: Option<string>,
    productCode: Option<string>,
    quantity: Int32,
    customer: Option<NewOrderCustomer>)

  /** The record components Jackson binds; every other key is ignored. */
  const MESSAGE_KEYS: set<string> := {"orderNumber", "productCode", "quantity", "customer"}
  const CUSTOMER_KEYS: set<string> := {"name", "email", "phone"}

  /** A `String` component: absent or null binds to null, a JSON string to its text. */
  function StringField(fields: map<string, Value>, key: string): (r: Result<Option<string>>)
    ensures key !in fields || fields[key].Null? ==> r == Ok(None)
    ensures key in fields && fields[key].Str? ==> r == Ok(Some(fields[key].s))
    ensures key in fields && !fields[key].Null? && !fields[key].Str? ==> r == Err(JsonProcessing)
  {
    if key !in fields then Ok(None)
    else match fields[key]
      case Null => Ok(None)
      case Str(s) => Ok(Some(s))
      case _ => Err(JsonProcessing)
  }

  /** An `int` component: absent or null binds to 0, a number must fit in 32 bits. */
  function IntField(fields: map<string, Value>, key: string): (r: Result<Int32>)
    ensures key !in fields || fields[key].Null? ==> r == Ok(0)
    ensures key in fields && !fields[key].Null? && !fields[key].Num? ==> r == Err(JsonProcessing)
    ensures key in fields && fields[key].Num? ==>
              (r.Ok? <==> -0x8000_0000 <= fields[key].n < 0x8000_0000)
    ensures r.Ok? && key in fields && fields[key].Num? ==> r.value == fields[key].n
  {
    if key !in fields then Ok(0)
    else match fields[key]
      case Null => Ok(0)
      case Num(n) => if -0x8000_0000 <= n < 0x8000_0000 then Ok(n) else Err(JsonProcessing)
      case _ => Err(JsonProcessing)
  }

  /** Binding of NewOrderCustomer; null stays null. */
  function DecodeCustomer(v: Value): (r: Result<Option<NewOrderCustomer>>)
    ensures v.Null? ==> r == Ok(None)
    ensures !v.Null? && !v.Obj? ==> r == Err(JsonProcessing)
    ensures r.Err? ==> r.error == JsonProcessing
    ensures v.Obj? ==>
              (r.Ok? <==> StringField(v.fields, "name").Ok? && StringField(v.fields, "email").Ok? &&
                          StringField(v.fields, "phone").Ok?)
    ensures v.Obj? && r.Ok? ==>
              r.value == Some(NewOrderCustomer(StringField(v.fields, "name").value,
                                               StringField(v.fields, "email").value,
                                               StringField(v.fields, "phone").value))
  {
    match v
    case Null => Ok(None)
    case Obj(c) =>
      var name := StringField(c, "name");
      var email := StringField(c, "email");
      var phone := StringField(c, "phone");
      if name.Err? then Err(name.error)
      else if email.Err? then Err(email.error)
      else if phone.Err? then Err(phone.error)
      else Ok(Some(NewOrderCustomer(name.value, email.value, phone.value)))
    case _ => Err(JsonProcessing)
  }

  /** readValue(payload, NewOrderMessage.class) on an already parsed payload.
      The literal `null` binds to a null message, any non-object to an error. */
  function DecodeMessage(v: Value): (r: Result<Option<NewOrderMessage>>)
    ensures v.Null? ==> r == Ok(None)
    ensures !v.Null? && !v.Obj? ==> r == Err(JsonProcessing)
    ensures r.Err? ==> r.error == JsonProcessing
    ensures v.Obj? && r.Ok? ==> r.value.Some?
    ensures v.Obj? && r.Ok? ==>
              var m, msg := v.fields, r.value.value;
              Ok(msg.orderNumber) == StringField(m, "orderNumber") &&
              Ok(msg.productCode) == StringField(m, "productCode") &&
              Ok(msg.quantity) == IntField(m, "quantity") &&
              (if "customer" in m then DecodeCustomer(m["customer"]) == Ok(msg.customer) else msg.customer.None?)
    ensures v.Obj? ==>
              var m := v.fields;
              (r.Ok? <==> StringField(m, "orderNumber").Ok? && StringField(m, "productCode").Ok? &&
                          IntField(m, "quantity").Ok? && ("customer" !in m || DecodeCustomer(m["customer"]).Ok?))
  {
    match v
    case Null => Ok(None)
    case Obj(m) =>
      var orderNumber := StringField(m, "orderNumber");
      var productCode := StringField(m, "productCode");
      var quantity := IntField(m, "quantity");
      var customer := if "customer" in m then DecodeCustomer(m["customer"]) else Ok(None);
      if orderNumber.Err? then Err(orderNumber.error)
      else if productCode.Err? then Err(productCode.error)
      else if quantity.Err? then Err(quantity.error)
      else if customer.Err? then Err(customer.error)
      else Ok(Some(NewOrderMessage(orderNumber.value, productCode.value, quantity.value, customer.value)))
    case _ => Err(JsonProcessing)
  }

  // ---------------------------------------------------------------------------
  // Serialisation (what a producer of the queue sends) and the round trip
  // ---------------------------------------------------------------------------

  function NullableString(s: Option<string>): (v: Value)
  {
    match s
    case None => Null
    case Some(t) => Str(t)
  }

  function EncodeCustomer(c: Option<NewOrderCustomer>): (v: Value)
  {
    match c
    case None => Null
    case Some(k) => Obj(map["name" := NullableString(k.name),
                            "email" := NullableString(k.email),
                            "phone" := NullableString(k.phone)])
  }

  /** Jackson's serialisation of the record: all four components, nulls written as null. */
  function EncodeMessage(msg: NewOrderMessage): (v: Value)
    ensures v.Obj? && v.fields.Keys == MESSAGE_KEYS
  {
    Obj(map["orderNumber" := NullableString(msg.orderNumber),
            "productCode" := NullableString(msg.productCode),
            "quantity" := Num(msg.quantity),
            "customer" := EncodeCustomer(msg.customer)])
  }

  /** Decoding what a producer encoded gives back the same message. */
  lemma DecodeEncode(msg: NewOrderMessage)
    ensures DecodeMessage(EncodeMessage(msg)) == Ok(Some(msg))
  {
    var m := EncodeMessage(msg).fields;
    assert DecodeCustomer(m["customer"]) == Ok(msg.customer);
  }

  // ---------------------------------------------------------------------------
  // Unknown properties are ignored at both levels
  // ---------------------------------------------------------------------------

  /** The object with unknown keys dropped, at the top level and inside `customer`. */
  function KnownPart(m: map<string, Value>): (k: map<string, Value>)
    ensures k.Keys == m.Keys * MESSAGE_KEYS
  {
    map key | key in m && key in MESSAGE_KEYS ::
      if key == "customer" && m[key].Obj?
      then Obj(map ck | ck in m[key].fields && ck in CUSTOMER_KEYS :: m[key].fields[ck])
      else m[key]
  }

  /** Decoding sees only the known part of an object: adding, removing or changing
      unknown keys at either level never changes the decoded message or the error. */
  lemma DecodeSeesOnlyKnownKeys(m: map<string, Value>)
    ensures DecodeMessage(Obj(m)) == DecodeMessage(Obj(KnownPart(m)))
  {
    var k := KnownPart(m);
    if "customer" in m && m["customer"].Obj? {
      var c := m["customer"].fields;
      var kc := k["customer"].fields;
      assert StringField(c, "name") == StringField(kc, "name");
      assert StringField(c, "email") == StringField(kc, "email");
      assert StringField(c, "phone") == StringField(kc, "phone");
    }
    assert StringField(m, "orderNumber") == StringField(k, "orderNumber");
    assert StringField(m, "productCode") == StringField(k, "productCode");
    assert IntField(m, "quantity") == IntField(k, "quantity");
  }

  /** An extra top-level key outside the record's components changes nothing. */
  lemma UnknownTopLevelKeyIgnored(m: map<string, Value>, key: string, x: Value)
    requires key !in MESSAGE_KEYS
    ensures DecodeMessage(Obj(m[key := x])) == DecodeMessage(Obj(m))
  {
    DecodeSeesOnlyKnownKeys(m);
    DecodeSeesOnlyKnownKeys(m[key := x]);
    assert KnownPart(m[key := x]) == KnownPart(m);
  }

  /** An extra key inside `customer` other than name, email and phone changes nothing. */
  lemma UnknownCustomerKeyIgnored(m: map<string, Value>, c: map<string, Value>, key: string, x: Value)
    requires key !in CUSTOMER_KEYS
    ensures DecodeMessage(Obj(m["customer" := Obj(c[key := x])]))
         == DecodeMessage(Obj(m["customer" := Obj(c)]))
  {
    var m1, m2 := m["customer" := Obj(c[key := x])], m["customer" := Obj(c)];
    DecodeSeesOnlyKnownKeys(m1);
    DecodeSeesOnlyKnownKeys(m2);
    assert KnownPart(m1)["customer"] == KnownPart(m2)["customer"];
    assert KnownPart(m1) == KnownPart(m2);
  }

  /** A payload without `customer`, or with `"customer": null`, decodes (if it decodes)
      to a message whose customer is null; it is not a decoding error on that account. */
  lemma MissingCustomerIsNull(m: map<string, Value>)
    requires "customer" !in m || m["customer"] == Null
    ensures DecodeMessage(Obj(m)).Ok? <==>
              StringField(m, "orderNumber").Ok? && StringField(m, "productCode").Ok? && IntField(m, "quantity").Ok?
    ensures DecodeMessage(Obj(m)).Ok? ==> DecodeMessage(Obj(m)).value.Some? && DecodeMessage(Obj(m)).value.value.customer.None?
  {
  }
}
