/** Parent references. The content API has written them in two encodings:
    - the current one, `{"database_id": X}`, named by its key alone;
    - the legacy one, `{"type": T, T: V}`, where `type` names the key that
      holds the identifier.
    Both resolve to one parent identifier. */
module Parent {
  import opened Outcomes
  import opened Json

  const DatabaseKey := "database_id"
  const TypeKey := "type"

  /** A decoded parent reference. */
  datatype ParentRef = DatabaseParent(databaseId: string) | TypedParent(kind: string, id: string)
  {
    /** The normalised parent identifier, whichever encoding carried it. */
    function Id(): string {
      match this
      case DatabaseParent(x) => x
      case TypedParent(_, x) => x
    }

    /** The key of the raw reference that holds the identifier. */
    function Key(): string {
      match this
      case DatabaseParent(_) => DatabaseKey
      case TypedParent(kind, _) => kind
    }

    /** Encodable without ambiguity: a legacy kind that is neither the
        `type` key itself nor the key the current encoding is recognised by. */
    predicate Valid() {
      TypedParent? ==> kind != TypeKey && kind != DatabaseKey
    }
  }

  /** Resolves a raw parent reference. The `database_id` key is looked for
      first, so a current-encoding reference that still carries a vestigial
      `type` key resolves through `database_id`. */
  function Decode(raw: Json): (r: Result<ParentRef>)
    ensures r.Ok? ==> raw.JObj? && Get(raw.fields, r.value.Key()) == Some(JStr(r.value.Id()))
    ensures raw.JObj? && Get(raw.fields, DatabaseKey).Some? ==> r.Ok? ==> r.value.DatabaseParent?
    ensures r.Ok? && r.value.TypedParent? ==>
              Get(raw.fields, DatabaseKey).None? && Get(raw.fields, TypeKey) == Some(JStr(r.value.kind))
  {
    match raw
    case JObj(o) =>
      (match Get(o, DatabaseKey)
       case Some(JStr(x)) => Ok(DatabaseParent(x))
       case Some(_) => Err(StructuralError(DatabaseKey))
       case None =>
         (match Get(o, TypeKey)
          case Some(JStr(t)) =>
            (match Get(o, t)
             case Some(JStr(v)) => Ok(TypedParent(t, v))
             case _ => Err(StructuralError(t)))
          case _ => Err(StructuralError(TypeKey))))
    case _ => Err(StructuralError("parent"))
  }

  /** Writes a parent reference in the encoding its variant stands for. */
  function Encode(p: ParentRef): (raw: Json)
    ensures raw.JObj? && (p.Valid() ==> DistinctKeys(raw.fields))
  {
    match p
    case DatabaseParent(x) => JObj([(DatabaseKey, JStr(x))])
    case TypedParent(kind, id) => JObj([(TypeKey, JStr(kind)), (kind, JStr(id))])
  }

  /** Decoding undoes encoding, for both encodings. */
  lemma DecodeEncode(p: ParentRef)
    requires p.Valid()
    ensures Decode(Encode(p)) == Ok(p)
  {
    if p.TypedParent? {
      var o := Encode(p).fields;
      assert Get(o, DatabaseKey).None?;
      GetEntry(o, 0);
      GetEntry(o, 1);
    }
  }

  /** The current encoding yields its `database_id` value, whatever else the
      reference carries (including a `type` key). */
  lemma CurrentEncoding(o: Object, x: string)
    requires Get(o, DatabaseKey) == Some(JStr(x))
    ensures Decode(JObj(o)) == Ok(DatabaseParent(x))
    ensures Decode(JObj(o)).value.Id() == x
  {
  }

  /** The legacy encoding `{type: T, T: V}` yields V. */
  lemma LegacyEncoding(o: Object, t: string, v: string)
    requires DistinctKeys(o) && DatabaseKey !in (set i | 0 <= i < |o| :: o[i].0)
    requires (TypeKey, JStr(t)) in o && (t, JStr(v)) in o
    ensures Decode(JObj(o)) == Ok(TypedParent(t, v))
    ensures Decode(JObj(o)).value.Id() == v
  {
  }
}
