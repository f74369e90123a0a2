/** The route handlers of src/controllers/PlanController.js over an
    in-memory record store. Each of the four Sequelize models is a table
    from a row's `id` to the row, and a row is the attribute object the
    handler builds or assigns. A handler reads, assigns attributes on the
    fetched row, saves or destroys, and answers 200/201, or 500 for any
    thrown error. */
module PlanRoutes {
  import opened Values

  /** A record: its attributes. */
  type Row = Object
  /** A table: each row under the value of its `id`. */
  type Table = map<Value, Row>

  /** Columns declared for each model in src/database/models.js. */
  const PlanColumns: set<string> := {"id", "name", "typePlan", "startDate", "endDate", "value"}
  const IntermedioColumns: set<string> := {"id", "monitoreoTiempoReal", "alertasRiesgo", "comunicacionEntrenador"}
  const PremiumColumns: set<string> := {"id", "sesionesVirtuales", "masajes", "cuidadoPosEjercicio"}
  const FeatureColumns: set<string> := {"id", "tipoPlan", "description"}

  /** The attributes PUT /plans/:id copies from the body, and the three
      flags the intermediate and premium handlers copy. */
  const PlanFields: set<string> := {"name", "typePlan", "startDate", "endDate", "value"}
  const Flags: set<string> := {"monitoreoTiempoReal", "alertasRiesgo", "comunicacionEntrenador"}

  /** `constants.HTTP_STATUS_BAD_REQUEST` */
  const BadRequestCode := 400

  /** `req.body`: undefined, null or an object. */
  datatype Body = UndefinedBody | NullBody | ObjectBody(fields: Object)

  /** The POST /plans guard: undefined, null, or no own keys. */
  predicate IsEmptyBody(b: Body)
  {
    b.UndefinedBody? || b.NullBody? || |b.fields| == 0
  }

  /** What a handler throws; `errorHandling` turns it into an opaque body. */
  datatype Thrown =
    | BadRequest(code: int)   // the Error raised for an empty body
    | TypeError               // a property of null or undefined, or a call of a missing method
    | ReferenceError          // an identifier bound nowhere
    | UniqueViolation         // the store refuses a row whose id is taken

  datatype Reply = One(row: Row) | NullJson | All(rows: set<Row>) | ErrorJson(error: Thrown)
  datatype Response = Response(status: int, reply: Reply)

  /** `res.status(500).json(errorHandling(error))` */
  function Fail(e: Thrown): Response
  {
    Response(500, ErrorJson(e))
  }

  /** An `id` the store keeps as given; for undefined or null it allocates one. */
  predicate IsKey(v: Value)
  {
    !v.Undefined? && !v.Null?
  }

  /** Every row is stored under its own `id`. */
  predicate Keyed(t: Table)
  {
    forall k :: k in t ==> IsKey(k) && Get(t[k], "id") == k
  }

  /** `Model.findOne({ where: { id } })` with the route's string parameter. */
  function FindOne(t: Table, id: string): Option<Row>
  {
    if Str(id) in t then Some(t[Str(id)]) else None
  }

  /** The three flags of a request body, as the object literal the
      intermediate and premium POST handlers pass to `create`. */
  function FlagsOf(fields: Object): Row
  {
    map["monitoreoTiempoReal" := Get(fields, "monitoreoTiempoReal"),
        "alertasRiesgo" := Get(fields, "alertasRiesgo"),
        "comunicacionEntrenador" := Get(fields, "comunicacionEntrenador")]
  }

  class PlanController {
    var plans: Table
    var intermedios: Table
    var premiums: Table
    var features: Table

    ghost predicate Valid()
      reads this
    {
      Keyed(plans) && Keyed(intermedios) && Keyed(premiums) && Keyed(features)
    }

    constructor ()
      ensures Valid()
      ensures plans == map[] && intermedios == map[] && premiums == map[] && features == map[]
    {
      plans, intermedios, premiums, features := map[], map[], map[], map[];
    }

    /** GET /plans */
    method ListPlans() returns (r: Response)
      ensures r.status == 200 && r.reply == All(plans.Values)
    {
      r := Response(200, All(plans.Values));
    }

    /** GET /plans/:id: the row with that id, or `null`, with 200 either way. */
    method GetPlan(id: string) returns (r: Response)
      requires Valid()
      ensures r.status == 200
      ensures Str(id) in plans ==> r.reply == One(plans[Str(id)]) && Get(r.reply.row, "id") == Str(id)
      ensures Str(id) !in plans ==> r.reply == NullJson
    {
      var found := FindOne(plans, id);
      if found.Some? {
        r := Response(200, One(found.value));
      } else {
        r := Response(200, NullJson);
      }
    }

    /** POST /plans. An empty body throws the 400 error, answered as 500.
        Otherwise the destructuring assignment writes the five attributes of
        the body back onto it (adding the missing ones as undefined) and
        evaluates to the body itself, which `create` receives whole: extra
        keys, `id` among them, are kept. */
    method CreatePlan(body: Body, freshId: string) returns (r: Response)
      requires Valid()
      modifies this
      ensures Valid()
      ensures intermedios == old(intermedios) && premiums == old(premiums) && features == old(features)
      ensures IsEmptyBody(body) ==> r == Fail(BadRequest(400)) && plans == old(plans)
      ensures !IsEmptyBody(body) ==>
        var given := Get(body.fields, "id");
        var key := if IsKey(given) then given else Str(freshId);
        if key in old(plans) then
          r == Fail(UniqueViolation) && plans == old(plans)
        else
          r.status == 201 && r.reply.One? && plans == old(plans)[key := r.reply.row]
          && Get(r.reply.row, "id") == key
          && (forall f :: f != "id" ==> Get(r.reply.row, f) == Get(body.fields, f))
          && r.reply.row.Keys == body.fields.Keys + PlanFields + {"id"}
    {
      if body.UndefinedBody? || body.NullBody? || |body.fields| == 0 {
        return Fail(BadRequest(BadRequestCode));
      }
      var attrs := body.fields;
      attrs := attrs["name" := Get(attrs, "name")];
      attrs := attrs["typePlan" := Get(attrs, "typePlan")];
      attrs := attrs["startDate" := Get(attrs, "startDate")];
      attrs := attrs["endDate" := Get(attrs, "endDate")];
      attrs := attrs["value" := Get(attrs, "value")];
      var row := if IsKey(Get(attrs, "id")) then attrs else attrs["id" := Str(freshId)];
      var key := Get(row, "id");
      if key in plans {
        return Fail(UniqueViolation);
      }
      plans := plans[key := row];
      r := Response(201, One(row));
    }

    /** PUT /plans/:id. Overwrites exactly the five attributes with the
        body's values (undefined ones included) and saves. A missing row is
        `null`, whose assignment throws; so does reading an undefined body. */
    method UpdatePlan(id: string, body: Body) returns (r: Response)
      requires Valid()
      modifies this
      ensures Valid()
      ensures intermedios == old(intermedios) && premiums == old(premiums) && features == old(features)
      ensures Str(id) !in old(plans) || !body.ObjectBody? ==> r == Fail(TypeError) && plans == old(plans)
      ensures Str(id) in old(plans) && body.ObjectBody? ==>
        var before := old(plans)[Str(id)];
        Str(id) in plans && plans == old(plans)[Str(id) := plans[Str(id)]]
        && (forall f :: Get(plans[Str(id)], f) == if f in PlanFields then Get(body.fields, f) else Get(before, f))
        && plans[Str(id)].Keys == before.Keys + PlanFields
        && r == Response(200, One(plans[Str(id)]))
    {
      var found := FindOne(plans, id);
      if found.None? || !body.ObjectBody? {
        return Fail(TypeError);
      }
      var plan := found.value;
      plan := plan["name" := Get(body.fields, "name")];
      plan := plan["typePlan" := Get(body.fields, "typePlan")];
      plan := plan["startDate" := Get(body.fields, "startDate")];
      plan := plan["endDate" := Get(body.fields, "endDate")];
      plan := plan["value" := Get(body.fields, "value")];
      plans := plans[Get(plan, "id") := plan];
      r := Response(200, One(plan));
    }

    /** DELETE /plans/:id: destroys that row and answers with it; a missing
        row is `null`, whose `destroy` throws. */
    method DeletePlan(id: string) returns (r: Response)
      requires Valid()
      modifies this
      ensures Valid()
      ensures intermedios == old(intermedios) && premiums == old(premiums) && features == old(features)
      ensures Str(id) !in old(plans) ==> r == Fail(TypeError) && plans == old(plans)
      ensures Str(id) in old(plans) ==>
        plans == old(plans) - {Str(id)} && r == Response(200, One(old(plans)[Str(id)]))
    {
      var found := FindOne(plans, id);
      if found.None? {
        return Fail(TypeError);
      }
      var plan := found.value;
      plans := plans - {Get(plan, "id")};
      r := Response(200, One(plan));
    }

    /** GET /plans/intermedio: after `findAll` the handler answers with
        `plan`, an identifier bound nowhere, so it always ends in 500. */
    method ListIntermedios() returns (r: Response)
      ensures r.status == 500 && r.reply == ErrorJson(ReferenceError)
    {
      var listed := intermedios.Values;
      r := Fail(ReferenceError);
    }

    /** POST /plans/intermedio: a PlanIntermedio row of the three flags and
        the id the store allocates. */
    method CreateIntermedio(body: Body, freshId: string) returns (r: Response)
      requires Valid()
      modifies this
      ensures Valid()
      ensures plans == old(plans) && premiums == old(premiums) && features == old(features)
      ensures !body.ObjectBody? ==> r == Fail(TypeError) && intermedios == old(intermedios)
      ensures body.ObjectBody? && Str(freshId) in old(intermedios) ==>
        r == Fail(UniqueViolation) && intermedios == old(intermedios)
      ensures body.ObjectBody? && Str(freshId) !in old(intermedios) ==>
        r.status == 201 && r.reply.One? && intermedios == old(intermedios)[Str(freshId) := r.reply.row]
        && r.reply.row.Keys == Flags + {"id"} && Get(r.reply.row, "id") == Str(freshId)
        && (forall f :: f in Flags ==> Get(r.reply.row, f) == Get(body.fields, f))
    {
      if !body.ObjectBody? {
        return Fail(TypeError);
      }
      var row := FlagsOf(body.fields)["id" := Str(freshId)];
      if Str(freshId) in intermedios {
        return Fail(UniqueViolation);
      }
      intermedios := intermedios[Str(freshId) := row];
      r := Response(201, One(row));
    }

    /** PUT /plans/intermedio/:id: looks the id up in the Plan table and
        writes the three flags onto that plan row; the extension tables are
        not read. */
    method UpdateIntermedio(id: string, body: Body) returns (r: Response)
      requires Valid()
      modifies this
      ensures Valid()
      ensures intermedios == old(intermedios) && premiums == old(premiums) && features == old(features)
      ensures Str(id) !in old(plans) || !body.ObjectBody? ==> r == Fail(TypeError) && plans == old(plans)
      ensures Str(id) in old(plans) && body.ObjectBody? ==>
        var before := old(plans)[Str(id)];
        Str(id) in plans && plans == old(plans)[Str(id) := plans[Str(id)]]
        && (forall f :: Get(plans[Str(id)], f) == if f in Flags then Get(body.fields, f) else Get(before, f))
        && plans[Str(id)].Keys == before.Keys + Flags
        && r == Response(200, One(plans[Str(id)]))
    {
      var found := FindOne(plans, id);
      if found.None? || !body.ObjectBody? {
        return Fail(TypeError);
      }
      var plan := found.value;
      plan := plan["monitoreoTiempoReal" := Get(body.fields, "monitoreoTiempoReal")];
      plan := plan["alertasRiesgo" := Get(body.fields, "alertasRiesgo")];
      plan := plan["comunicacionEntrenador" := Get(body.fields, "comunicacionEntrenador")];
      plans := plans[Get(plan, "id") := plan];
      r := Response(200, One(plan));
    }

    /** DELETE /plans/intermedio/:id: the same statements as DELETE
        /plans/:id, so it destroys the Plan row. */
    method DeleteIntermedio(id: string) returns (r: Response)
      requires Valid()
      modifies this
      ensures Valid()
      ensures intermedios == old(intermedios) && premiums == old(premiums) && features == old(features)
      ensures Str(id) !in old(plans) ==> r == Fail(TypeError) && plans == old(plans)
      ensures Str(id) in old(plans) ==>
        plans == old(plans) - {Str(id)} && r == Response(200, One(old(plans)[Str(id)]))
    {
      r := DeletePlan(id);
    }

    /** GET /plans/premium */
    method ListPremiums() returns (r: Response)
      ensures r.status == 200 && r.reply == All(premiums.Values)
    {
      r := Response(200, All(premiums.Values));
    }

    /** POST /plans/premium: the same three intermediate flags, stored in
        PlanPremium; none of the premium columns is set. */
    method CreatePremium(body: Body, freshId: string) returns (r: Response)
      requires Valid()
      modifies this
      ensures Valid()
      ensures plans == old(plans) && intermedios == old(intermedios) && features == old(features)
      ensures !body.ObjectBody? ==> r == Fail(TypeError) && premiums == old(premiums)
      ensures body.ObjectBody? && Str(freshId) in old(premiums) ==>
        r == Fail(UniqueViolation) && premiums == old(premiums)
      ensures body.ObjectBody? && Str(freshId) !in old(premiums) ==>
        r.status == 201 && r.reply.One? && premiums == old(premiums)[Str(freshId) := r.reply.row]
        && r.reply.row.Keys == Flags + {"id"} && Get(r.reply.row, "id") == Str(freshId)
        && (forall f :: f in Flags ==> Get(r.reply.row, f) == Get(body.fields, f))
        && r.reply.row.Keys * PremiumColumns == {"id"}
    {
      if !body.ObjectBody? {
        return Fail(TypeError);
      }
      var row := FlagsOf(body.fields)["id" := Str(freshId)];
      if Str(freshId) in premiums {
        return Fail(UniqueViolation);
      }
      premiums := premiums[Str(freshId) := row];
      r := Response(201, One(row));
    }

    /** PUT /plans/premium/:id: the same statements as PUT
        /plans/intermedio/:id, on the Plan table. */
    method UpdatePremium(id: string, body: Body) returns (r: Response)
      requires Valid()
      modifies this
      ensures Valid()
      ensures intermedios == old(intermedios) && premiums == old(premiums) && features == old(features)
      ensures Str(id) !in old(plans) || !body.ObjectBody? ==> r == Fail(TypeError) && plans == old(plans)
      ensures Str(id) in old(plans) && body.ObjectBody? ==>
        var before := old(plans)[Str(id)];
        Str(id) in plans && plans == old(plans)[Str(id) := plans[Str(id)]]
        && (forall f :: Get(plans[Str(id)], f) == if f in Flags then Get(body.fields, f) else Get(before, f))
        && plans[Str(id)].Keys == before.Keys + Flags
        && r == Response(200, One(plans[Str(id)]))
    {
      r := UpdateIntermedio(id, body);
    }

    /** DELETE /plans/premium/:id: destroys the Plan row. */
    method DeletePremium(id: string) returns (r: Response)
      requires Valid()
      modifies this
      ensures Valid()
      ensures intermedios == old(intermedios) && premiums == old(premiums) && features == old(features)
      ensures Str(id) !in old(plans) ==> r == Fail(TypeError) && plans == old(plans)
      ensures Str(id) in old(plans) ==>
        plans == old(plans) - {Str(id)} && r == Response(200, One(old(plans)[Str(id)]))
    {
      r := DeletePlan(id);
    }

    /** GET /descriptionFeatures */
    method ListFeatures() returns (r: Response)
      ensures r.status == 200 && r.reply == All(features.Values)
    {
      r := Response(200, All(features.Values));
    }

    /** POST /descriptionFeatures: stores `name` and `description` under an
        allocated id; `tipoPlan` is never set. */
    method CreateFeature(body: Body, freshId: string) returns (r: Response)
      requires Valid()
      modifies this
      ensures Valid()
      ensures plans == old(plans) && intermedios == old(intermedios) && premiums == old(premiums)
      ensures !body.ObjectBody? ==> r == Fail(TypeError) && features == old(features)
      ensures body.ObjectBody? && Str(freshId) in old(features) ==>
        r == Fail(UniqueViolation) && features == old(features)
      ensures body.ObjectBody? && Str(freshId) !in old(features) ==>
        r.status == 201 && r.reply.One? && features == old(features)[Str(freshId) := r.reply.row]
        && r.reply.row.Keys == {"id", "name", "description"} && Get(r.reply.row, "id") == Str(freshId)
        && Get(r.reply.row, "name") == Get(body.fields, "name")
        && Get(r.reply.row, "description") == Get(body.fields, "description")
        && Get(r.reply.row, "tipoPlan") == Undefined
    {
      if !body.ObjectBody? {
        return Fail(TypeError);
      }
      var row := map["name" := Get(body.fields, "name"),
                     "description" := Get(body.fields, "description"),
                     "id" := Str(freshId)];
      if Str(freshId) in features {
        return Fail(UniqueViolation);
      }
      features := features[Str(freshId) := row];
      r := Response(201, One(row));
    }

    /** PUT /descriptionFeatures/:id: `findOne` is not awaited, so the
        attributes land on a Promise, which has no `save`; the call throws
        and nothing is stored. With an undefined body the read of
        `req.body.name` throws first. */
    method UpdateFeature(id: string, body: Body) returns (r: Response)
      ensures r.status == 500 && r.reply == ErrorJson(TypeError)
    {
      var pending := FindOne(features, id);
      if !body.ObjectBody? {
        return Fail(TypeError);
      }
      r := Fail(TypeError);
    }

    /** DELETE /descriptionFeatures/:id */
    method DeleteFeature(id: string) returns (r: Response)
      requires Valid()
      modifies this
      ensures Valid()
      ensures plans == old(plans) && intermedios == old(intermedios) && premiums == old(premiums)
      ensures Str(id) !in old(features) ==> r == Fail(TypeError) && features == old(features)
      ensures Str(id) in old(features) ==>
        features == old(features) - {Str(id)} && r == Response(200, One(old(features)[Str(id)]))
    {
      var found := FindOne(features, id);
      if found.None? {
        return Fail(TypeError);
      }
      var feature := found.value;
      features := features - {Get(feature, "id")};
      r := Response(200, One(feature));
    }
  }
}
