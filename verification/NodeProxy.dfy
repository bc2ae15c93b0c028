/** The proxy object of a node update: `parseProxyPatch`. */
module NodeProxy {
  import opened Common
  import opened Json
  import opened Tables

  function ModeName(m: ProxyMode): string {
    match m
    case Inherit => "inherit"
    case Global => "global"
    case Direct => "none"
    case ViaProxy => "proxy"
  }

  function ModeOf(name: string): ProxyMode {
    if name == "inherit" then Inherit else if name == "global" then Global
    else if name == "none" then Direct else ViaProxy
  }

  /** `parseNullableUUID`; `uuid.Parse` is a parameter. */
  function NullableId(fields: Fields, parseId: string -> Option<Id>): Result<Option<Id>, Problem> {
    if "proxy_id" !in fields || fields["proxy_id"].Null? then Ok(None)
    else if !fields["proxy_id"].Str? then Err(WrongType("proxy_id"))
    else
      match parseId(fields["proxy_id"].s)
      case None => Err(NotAllowed("proxy_id"))
      case Some(id) => Ok(Some(id))
  }

  /** Absent or null leaves the setting alone. */
  function ParseProxyPatch(raw: Option<Value>, parseId: string -> Option<Id>): Result<Option<ProxyPatch>, Problem> {
    if raw == None || raw == Some(Null) then Ok(None)
    else if !raw.value.Obj? then Err(NotAnObject)
    else
      var fields := raw.value.fields;
      if fields.Keys - {"mode", "proxy_id"} != {} then Err(UnknownFields(fields.Keys - {"mode", "proxy_id"}))
      else
        match OneOf(fields, "mode", {"inherit", "global", "none", "proxy"})
        case Err(p) => Err(p)
        case Ok(name) =>
          match NullableId(fields, parseId)
          case Err(p) => Err(p)
          case Ok(id) =>
            if name == "proxy" && id.None? then Err(Required("proxy_id"))
            else if name != "proxy" && id.Some? then Err(NotAllowed("proxy_id"))
            else Ok(Some(ProxyPatch(ModeOf(name), id)))
  }

  /** The proxy_id field says this: absent or null for no proxy, else a string that parses to the id. */
  predicate SaysId(fields: Fields, parseId: string -> Option<Id>, id: Option<Id>) {
    if id.None? then "proxy_id" !in fields || fields["proxy_id"].Null?
    else "proxy_id" in fields && fields["proxy_id"].Str? && parseId(fields["proxy_id"].s) == id
  }

  /** A patch is accepted exactly when the object says so and an id comes with mode `proxy` and only then. */
  lemma ProxyPatchExact(v: Value, parseId: string -> Option<Id>, patch: ProxyPatch)
    ensures ParseProxyPatch(Some(v), parseId) == Ok(Some(patch)) <==>
            && v.Obj? && v.fields.Keys <= {"mode", "proxy_id"}
            && "mode" in v.fields && v.fields["mode"] == Str(ModeName(patch.mode))
            && SaysId(v.fields, parseId, patch.proxyId)
            && patch.Valid()
  {
    assert v.Obj? ==> (v.fields.Keys - {"mode", "proxy_id"} == {} <==> v.fields.Keys <= {"mode", "proxy_id"});
    assert ModeOf(ModeName(patch.mode)) == patch.mode;
    assert forall n :: n in {"inherit", "global", "none", "proxy"} ==> ModeName(ModeOf(n)) == n;
  }

  /** Absent and null leave the setting alone; nothing else does. */
  lemma NullKeeps(raw: Option<Value>, parseId: string -> Option<Id>)
    ensures ParseProxyPatch(raw, parseId) == Ok(None) <==> raw == None || raw == Some(Null)
  {
  }

  /** Every refusal names a fault the object has. */
  lemma ProxyPatchRefused(v: Value, parseId: string -> Option<Id>, p: Problem)
    requires ParseProxyPatch(Some(v), parseId) == Err(p)
    ensures if !v.Obj? then p == NotAnObject
            else
              var fields := v.fields;
              match p
              case UnknownFields(names) =>
                names != {} && forall n :: n in names <==> n in fields && n != "mode" && n != "proxy_id"
              case Required(n) =>
                || (n == "mode" && n !in fields)
                || (n == "proxy_id" && fields["mode"] == Str("proxy") && (n !in fields || fields[n] == Null))
              case WrongType(n) =>
                n in fields && !fields[n].Str? && (n == "mode" || (n == "proxy_id" && fields[n] != Null))
              case NotAllowed(n) =>
                n in fields && fields[n].Str? &&
                if n == "mode" then forall m :: fields[n].s != ModeName(m)
                else n == "proxy_id" && (parseId(fields[n].s).None? || fields["mode"] != Str("proxy"))
              case _ => false
  {
    assert forall m :: ModeName(m) in {"inherit", "global", "none", "proxy"};
  }
}
