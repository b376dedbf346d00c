/**
 * The payload mapper of the queue handler: the nested service-invoice
 * payload for NFE.io built from the decoded queue message with one
 * `data.get(key, default)` per field, and the address country fixed to BRA.
 */
module Payload {
  import opened Wrappers
  import opened Json

  datatype City = City(code: JsonValue, name: JsonValue)

  datatype Address = Address(
    country: string,
    postalCode: JsonValue,
    street: JsonValue,
    number: JsonValue,
    district: JsonValue,
    city: City,
    state: JsonValue)

  /** The borrower is the invoiced customer. */
  datatype Borrower = Borrower(
    federalTaxNumber: JsonValue,
    name: JsonValue,
    email: JsonValue,
    address: Address)

  datatype InvoicePayload = InvoicePayload(
    cityServiceCode: JsonValue,
    description: JsonValue,
    servicesAmount: JsonValue,
    borrower: Borrower)

  /** The address country, the one field that never comes from the message. */
  const Country: string := "BRA"

  /** One defaulted field: the message key it is read from, where it sits in
      the payload JSON, and the value used when the key is absent. */
  datatype FieldRule = FieldRule(key: string, path: seq<string>, default: JsonValue)

  /** The mapping table, field by field, in the order of the payload literal. */
  const Rules: seq<FieldRule> := [
    FieldRule("codigo_servico", ["cityServiceCode"], JString("101")),
    FieldRule("descricao", ["description"], JString("Serviço prestado")),
    FieldRule("valor", ["servicesAmount"], JInt(0)),
    FieldRule("cpf_cnpj_cliente", ["borrower", "federalTaxNumber"], JString("00000000000")),
    FieldRule("cliente", ["borrower", "name"], JString("Cliente não informado")),
    FieldRule("email", ["borrower", "email"], JString("")),
    FieldRule("cep", ["borrower", "address", "postalCode"], JString("00000000")),
    FieldRule("endereco", ["borrower", "address", "street"], JString("Rua não informada")),
    FieldRule("numero", ["borrower", "address", "number"], JString("0")),
    FieldRule("bairro", ["borrower", "address", "district"], JString("")),
    FieldRule("codigo_municipio", ["borrower", "address", "city", "code"], JString("3550308")),
    FieldRule("municipio", ["borrower", "address", "city", "name"], JString("São Paulo")),
    FieldRule("uf", ["borrower", "address", "state"], JString("SP"))
  ]

  const CountryPath: seq<string> := ["borrower", "address", "country"]

  /** The value a rule prescribes for a message: the message's own value when
      the key is present (even when that value is null), the default otherwise. */
  function Expected(data: map<string, JsonValue>, rule: FieldRule): JsonValue
  {
    GetOr(data, rule.key, rule.default)
  }

  /** The payload dict literal, field by field. */
  function MapPayload(data: map<string, JsonValue>): InvoicePayload
  {
    InvoicePayload(
      GetOr(data, "codigo_servico", JString("101")),
      GetOr(data, "descricao", JString("Serviço prestado")),
      GetOr(data, "valor", JInt(0)),
      Borrower(
        GetOr(data, "cpf_cnpj_cliente", JString("00000000000")),
        GetOr(data, "cliente", JString("Cliente não informado")),
        GetOr(data, "email", JString("")),
        Address(
          Country,
          GetOr(data, "cep", JString("00000000")),
          GetOr(data, "endereco", JString("Rua não informada")),
          GetOr(data, "numero", JString("0")),
          GetOr(data, "bairro", JString("")),
          City(
            GetOr(data, "codigo_municipio", JString("3550308")),
            GetOr(data, "municipio", JString("São Paulo"))),
          GetOr(data, "uf", JString("SP")))))
  }

  /** The payload as the dict that `json.dumps` serialises for the POST body. */
  function ToJson(p: InvoicePayload): JsonValue
  {
    JObject(map[
      "cityServiceCode" := p.cityServiceCode,
      "description" := p.description,
      "servicesAmount" := p.servicesAmount,
      "borrower" := BorrowerJson(p.borrower)])
  }

  function BorrowerJson(b: Borrower): JsonValue
  {
    JObject(map[
      "federalTaxNumber" := b.federalTaxNumber,
      "name" := b.name,
      "email" := b.email,
      "address" := AddressJson(b.address)])
  }

  function AddressJson(a: Address): JsonValue
  {
    JObject(map[
      "country" := JString(a.country),
      "postalCode" := a.postalCode,
      "street" := a.street,
      "number" := a.number,
      "district" := a.district,
      "city" := CityJson(a.city),
      "state" := a.state])
  }

  function CityJson(c: City): JsonValue
  {
    JObject(map["code" := c.code, "name" := c.name])
  }

  /** One step of `Lookup` into an object that has the key. */
  lemma LookupStep(fields: map<string, JsonValue>, key: string, rest: seq<string>)
    requires key in fields
    ensures Lookup(JObject(fields), [key] + rest) == Lookup(fields[key], rest)
  {
    assert ([key] + rest)[1..] == rest;
  }

  lemma LookupTop(p: InvoicePayload, key: string)
    requires key in {"cityServiceCode", "description", "servicesAmount"}
    ensures Lookup(ToJson(p), [key]) == Some(ToJson(p).fields[key])
  {
    LookupStep(ToJson(p).fields, key, []);
  }

  lemma LookupBorrower(p: InvoicePayload, key: string)
    requires key in {"federalTaxNumber", "name", "email"}
    ensures Lookup(ToJson(p), ["borrower", key]) == Some(BorrowerJson(p.borrower).fields[key])
  {
    LookupStep(ToJson(p).fields, "borrower", [key]);
    LookupStep(BorrowerJson(p.borrower).fields, key, []);
  }

  lemma LookupAddress(p: InvoicePayload, key: string)
    requires key in {"country", "postalCode", "street", "number", "district", "state"}
    ensures Lookup(ToJson(p), ["borrower", "address", key])
         == Some(AddressJson(p.borrower.address).fields[key])
  {
    LookupStep(ToJson(p).fields, "borrower", ["address", key]);
    LookupStep(BorrowerJson(p.borrower).fields, "address", [key]);
    LookupStep(AddressJson(p.borrower.address).fields, key, []);
  }

  lemma LookupCity(p: InvoicePayload, key: string)
    requires key in {"code", "name"}
    ensures Lookup(ToJson(p), ["borrower", "address", "city", key])
         == Some(CityJson(p.borrower.address.city).fields[key])
  {
    LookupStep(ToJson(p).fields, "borrower", ["address", "city", key]);
    LookupStep(BorrowerJson(p.borrower).fields, "address", ["city", key]);
    LookupStep(AddressJson(p.borrower.address).fields, "city", [key]);
    LookupStep(CityJson(p.borrower.address.city).fields, key, []);
  }

  /** Every defaulted field of the posted payload holds the message's value
      when its key is present and the rule's default when it is absent. */
  lemma MapPayloadFollowsRule(data: map<string, JsonValue>, i: nat)
    requires i < |Rules|
    ensures Lookup(ToJson(MapPayload(data)), Rules[i].path) == Some(Expected(data, Rules[i]))
  {
    var p := MapPayload(data);
    var path := Rules[i].path;
    if i < 3 {
      LookupTop(p, path[0]);
    } else if i < 6 {
      LookupBorrower(p, path[1]);
    } else if i < 10 || i == 12 {
      LookupAddress(p, path[2]);
    } else {
      LookupCity(p, path[3]);
    }
  }

  /** A key present with value null stays null: defaulting is by key absence only. */
  lemma NullIsKept(data: map<string, JsonValue>, i: nat)
    requires i < |Rules| && Rules[i].key in data && data[Rules[i].key] == JNull
    ensures Lookup(ToJson(MapPayload(data)), Rules[i].path) == Some(JNull)
  {
    MapPayloadFollowsRule(data, i);
  }

  /** The address country is "BRA" whatever the message holds. */
  lemma CountryIsAlwaysBra(data: map<string, JsonValue>)
    ensures Lookup(ToJson(MapPayload(data)), CountryPath) == Some(JString("BRA"))
  {
    LookupAddress(MapPayload(data), "country");
  }

  /** Keys outside the table do not influence the payload: two messages that
      agree on what every rule prescribes map to the same payload. */
  lemma OnlyRuleKeysMatter(d1: map<string, JsonValue>, d2: map<string, JsonValue>)
    requires forall i :: 0 <= i < |Rules| ==> Expected(d1, Rules[i]) == Expected(d2, Rules[i])
    ensures MapPayload(d1) == MapPayload(d2)
  {
    assert Expected(d1, Rules[0]) == Expected(d2, Rules[0]);
    assert Expected(d1, Rules[1]) == Expected(d2, Rules[1]);
    assert Expected(d1, Rules[2]) == Expected(d2, Rules[2]);
    assert Expected(d1, Rules[3]) == Expected(d2, Rules[3]);
    assert Expected(d1, Rules[4]) == Expected(d2, Rules[4]);
    assert Expected(d1, Rules[5]) == Expected(d2, Rules[5]);
    assert Expected(d1, Rules[6]) == Expected(d2, Rules[6]);
    assert Expected(d1, Rules[7]) == Expected(d2, Rules[7]);
    assert Expected(d1, Rules[8]) == Expected(d2, Rules[8]);
    assert Expected(d1, Rules[9]) == Expected(d2, Rules[9]);
    assert Expected(d1, Rules[10]) == Expected(d2, Rules[10]);
    assert Expected(d1, Rules[11]) == Expected(d2, Rules[11]);
    assert Expected(d1, Rules[12]) == Expected(d2, Rules[12]);
  }
}
