/** The request validation rules (backend/lib/schemas.ts): the four zod schemas as
    accept/reject predicates over the request the validator sees, the values the
    schemas produce, and the `parseInt` transform of the `id` path parameter. */
module Schemas {
  import opened Wrappers
  import EcmaParseInt

  /** A parsed JSON value; numbers are reals. */
  datatype Json =
    | JNull
    | JBool(b: bool)
    | JNumber(n: real)
    | JString(s: string)
    | JArray(elems: seq<Json>)
    | JObject(fields: map<string, Json>)

  /** What is validated: the request body and the route's path parameters, which
      are always strings. No schema constrains the query string. */
  datatype Request = Request(body: Json, params: map<string, string>)

  const NameMinLength: nat := 1
  const NameMaxLength: nat := 100
  const DescriptionMaxLength: nat := 500
  const PriceMinimum: real := 0.0

  // ---------------------------------------------------------------------------
  // zod's checks

  /** `z.string().min(lo).max(hi)`. */
  predicate StringWithin(v: Json, lo: nat, hi: nat)
  {
    v.JString? && lo <= |v.s| <= hi
  }

  /** `.min(m)` on a number: inclusive. */
  predicate AtLeast(x: real, m: real)
  {
    x >= m
  }

  /** `.nonnegative()` on a number. */
  predicate NonNegative(x: real)
  {
    x >= 0.0
  }

  /** A required key: present and obeying `rule`. */
  predicate Required(fields: map<string, Json>, key: string, rule: Json -> bool)
  {
    key in fields && rule(fields[key])
  }

  /** `.optional()`: an absent key passes; JSON `null` is a present value, not `undefined`. */
  predicate Optional(fields: map<string, Json>, key: string, rule: Json -> bool)
  {
    key !in fields || rule(fields[key])
  }

  // ---------------------------------------------------------------------------
  // The field rules

  /** `name: z.string().min(1).max(100)`. */
  predicate NameRule(v: Json)
  {
    StringWithin(v, NameMinLength, NameMaxLength)
  }

  /** `description: z.string().max(500)`. */
  predicate DescriptionRule(v: Json)
  {
    StringWithin(v, 0, DescriptionMaxLength)
  }

  /** `price: z.number().min(0).nonnegative()`. */
  predicate PriceRule(v: Json)
  {
    v.JNumber? && AtLeast(v.n, PriceMinimum) && NonNegative(v.n)
  }

  // ---------------------------------------------------------------------------
  // The schemas

  predicate CreateBodyValid(body: Json)
  {
    body.JObject? &&
    Required(body.fields, "name", NameRule) &&
    Optional(body.fields, "description", DescriptionRule) &&
    Required(body.fields, "price", PriceRule)
  }

  predicate UpdateBodyValid(body: Json)
  {
    body.JObject? &&
    Optional(body.fields, "name", NameRule) &&
    Optional(body.fields, "description", DescriptionRule) &&
    Optional(body.fields, "price", PriceRule)
  }

  /** `params: z.object({ id: z.string().transform(...) })`: the transform never fails. */
  predicate IdParamsValid(params: map<string, string>)
  {
    "id" in params
  }

  /** `createItemSchema`. */
  predicate CreateItemSchema(req: Request)
  {
    CreateBodyValid(req.body)
  }

  /** `updateItemSchema`. */
  predicate UpdateItemSchema(req: Request)
  {
    IdParamsValid(req.params) && UpdateBodyValid(req.body)
  }

  /** `getItemByIdSchema`, which also guards delete-by-id. */
  predicate GetItemByIdSchema(req: Request)
  {
    IdParamsValid(req.params)
  }

  /** `deleteManySchema`: `ids` is an array of numbers. */
  predicate DeleteManySchema(req: Request)
  {
    req.body.JObject? && "ids" in req.body.fields &&
    var ids := req.body.fields["ids"];
    ids.JArray? && forall i :: 0 <= i < |ids.elems| ==> ids.elems[i].JNumber?
  }

  /** The transformed `id`: `parseInt(id, 10)`, `None` for NaN. */
  function IdParam(params: map<string, string>): Option<int>
    requires IdParamsValid(params)
  {
    EcmaParseInt.ParseInt(params["id"])
  }

  // ---------------------------------------------------------------------------
  // The values the body schemas produce, and their JSON form

  datatype CreateItemDto = CreateItemDto(name: string, description: Option<string>, price: real)

  datatype UpdateItemDto = UpdateItemDto(name: Option<string>, description: Option<string>, price: Option<real>)

  /** The JSON object a client sends for `d`; an absent field is left out. */
  function CreateBody(d: CreateItemDto): Json
  {
    JObject(map["name" := JString(d.name), "price" := JNumber(d.price)] +
            if d.description.Some? then map["description" := JString(d.description.value)] else map[])
  }

  function UpdateBody(d: UpdateItemDto): Json
  {
    JObject((if d.name.Some? then map["name" := JString(d.name.value)] else map[]) +
            (if d.description.Some? then map["description" := JString(d.description.value)] else map[]) +
            (if d.price.Some? then map["price" := JNumber(d.price.value)] else map[]))
  }

  /** The bounds on a create body, stated on its typed form. */
  predicate CreateDtoInBounds(d: CreateItemDto)
  {
    1 <= |d.name| <= 100 &&
    (d.description.Some? ==> |d.description.value| <= 500) &&
    d.price >= 0.0
  }

  predicate UpdateDtoInBounds(d: UpdateItemDto)
  {
    (d.name.Some? ==> 1 <= |d.name.value| <= 100) &&
    (d.description.Some? ==> |d.description.value| <= 500) &&
    (d.price.Some? ==> d.price.value >= 0.0)
  }

  /** The keys a body schema keeps; zod strips every other key. */
  const ItemKeys: set<string> := {"name", "description", "price"}

  /** `createItemSchema.parse` on the body: the typed value, or `None` on rejection. */
  function ParseCreateBody(body: Json): (r: Option<CreateItemDto>)
    ensures r.Some? <==> CreateBodyValid(body)
    ensures r.Some? ==> CreateDtoInBounds(r.value)
    ensures r.Some? ==> CreateBody(r.value) == JObject(map k | k in body.fields && k in ItemKeys :: body.fields[k])
  {
    if !CreateBodyValid(body) then None
    else
      var f := body.fields;
      var d := CreateItemDto(f["name"].s,
                             if "description" in f then Some(f["description"].s) else None,
                             f["price"].n);
      assert CreateBody(d).fields == map k | k in f && k in ItemKeys :: f[k];
      Some(d)
  }

  /** `updateItemSchema.parse` on the body. */
  function ParseUpdateBody(body: Json): (r: Option<UpdateItemDto>)
    ensures r.Some? <==> UpdateBodyValid(body)
    ensures r.Some? ==> UpdateDtoInBounds(r.value)
    ensures r.Some? ==> UpdateBody(r.value) == JObject(map k | k in body.fields && k in ItemKeys :: body.fields[k])
  {
    if !UpdateBodyValid(body) then None
    else
      var f := body.fields;
      var d := UpdateItemDto(if "name" in f then Some(f["name"].s) else None,
                             if "description" in f then Some(f["description"].s) else None,
                             if "price" in f then Some(f["price"].n) else None);
      assert UpdateBody(d).fields == map k | k in f && k in ItemKeys :: f[k];
      Some(d)
  }

  // ---------------------------------------------------------------------------
  // Properties of the rules

  /** A create body built from typed fields is accepted iff the fields are in bounds,
      and then it parses back to those fields. */
  lemma CreateBodyRoundTrip(d: CreateItemDto)
    ensures CreateBodyValid(CreateBody(d)) <==> CreateDtoInBounds(d)
    ensures CreateDtoInBounds(d) ==> ParseCreateBody(CreateBody(d)) == Some(d)
  {
  }

  lemma UpdateBodyRoundTrip(d: UpdateItemDto)
    ensures UpdateBodyValid(UpdateBody(d)) <==> UpdateDtoInBounds(d)
    ensures UpdateDtoInBounds(d) ==> ParseUpdateBody(UpdateBody(d)) == Some(d)
  {
  }

  /** An empty name or one over 100 characters is rejected. */
  lemma NameLengthRejected(d: CreateItemDto)
    requires |d.name| == 0 || |d.name| > 100
    ensures !CreateBodyValid(CreateBody(d))
  {
  }

  /** A price of 0 passes; a negative price fails, for create and for update. */
  lemma PriceBoundary(x: real)
    ensures PriceRule(JNumber(x)) <==> x >= 0.0
    ensures PriceRule(JNumber(0.0))
  {
  }

  /** `.min(0)` and `.nonnegative()` impose the same bound, so either alone gives the same rule. */
  lemma PriceChecksCoincide(x: real)
    ensures AtLeast(x, PriceMinimum) <==> NonNegative(x)
    ensures PriceRule(JNumber(x)) <==> AtLeast(x, PriceMinimum)
  {
  }

  /** `description: null` is rejected: `.optional()` admits only an absent key. */
  lemma NullDescriptionRejected(body: Json)
    requires body.JObject? && "description" in body.fields && body.fields["description"] == JNull
    ensures !CreateBodyValid(body) && !UpdateBodyValid(body)
  {
  }

  /** The empty update body is accepted. */
  lemma EmptyUpdateAccepted()
    ensures UpdateBodyValid(JObject(map[]))
  {
  }

  /** Every valid create body is a valid update body. */
  lemma CreateBodyIsUpdateBody(body: Json)
    requires CreateBodyValid(body)
    ensures UpdateBodyValid(body)
  {
  }

  /** The `id` rule accepts every string and yields its `parseInt`. */
  lemma IdRuleNeverRejects(body: Json, id: string)
    ensures GetItemByIdSchema(Request(body, map["id" := id]))
    ensures IdParam(map["id" := id]) == EcmaParseInt.ParseInt(id)
  {
  }

  /** Update and get/delete-by-id apply the same `id` rule. */
  lemma SameIdRule(req: Request)
    ensures UpdateItemSchema(req) <==> GetItemByIdSchema(req) && UpdateBodyValid(req.body)
  {
  }

  /** The `id` examples: "42" gives 42, "12abc" gives 12, "abc" gives NaN. */
  lemma IdExamples()
    ensures IdParam(map["id" := "42"]) == Some(42)
    ensures IdParam(map["id" := "12abc"]) == Some(12)
    ensures IdParam(map["id" := "abc"]) == None
  {
    EcmaParseInt.ParseIntDigitExamples();
    EcmaParseInt.ParseIntOtherExamples();
  }

  /** The JSON array of the numbers `xs`. */
  function Numbers(xs: seq<real>): Json
  {
    JArray(seq(|xs|, i requires 0 <= i < |xs| => JNumber(xs[i])))
  }

  /** Every array of numbers is accepted as `ids`, including the empty array and
      repeated ids. */
  lemma DeleteManyAcceptsNumberArrays(xs: seq<real>, params: map<string, string>)
    ensures DeleteManySchema(Request(JObject(map["ids" := Numbers(xs)]), params))
  {
  }

  lemma DeleteManyRejectsNonNumbers(elems: seq<Json>, i: nat, params: map<string, string>)
    requires i < |elems| && !elems[i].JNumber?
    ensures !DeleteManySchema(Request(JObject(map["ids" := JArray(elems)]), params))
  {
  }

  lemma DeleteManyRejectsMissingIds(fields: map<string, Json>, params: map<string, string>)
    requires "ids" !in fields
    ensures !DeleteManySchema(Request(JObject(fields), params))
  {
  }

  /** Both directions at once: any other body, such as `{"ids": 5}`, `{"ids": null}`,
      `{"ids": "1,2"}` or one that is not an object, is rejected. */
  lemma DeleteManyIff(req: Request)
    ensures DeleteManySchema(req) <==>
      req.body.JObject? && "ids" in req.body.fields &&
      exists xs: seq<real> :: req.body.fields["ids"] == Numbers(xs)
  {
    if DeleteManySchema(req) {
      var e := req.body.fields["ids"].elems;
      var xs := seq(|e|, i requires 0 <= i < |e| => e[i].n);
      assert req.body.fields["ids"] == Numbers(xs);
    }
  }
}
