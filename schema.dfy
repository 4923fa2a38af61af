/** The record schema of the demonstrated "api" collection: the declared
    properties, the required ones, the enumerated values and the defaults. */
module Schema {

  /** One entry of `enums`: a field and the values it may take. */
  datatype Enumeration = Enumeration(field: string, values: seq<string>)

  /** One entry of `defs`: a field and the value it takes when absent. */
  datatype Default = Default(name: string, value: string)

  const Props: seq<string> :=
    ["id", "givenName", "familyName", "telephone", "email", "status", "dateCreated", "dateUpdated"]

  const Reqd: seq<string> := ["id", "email", "status"]

  const Enums: seq<Enumeration> := [Enumeration("status", ["pending", "active", "suspended", "closed"])]

  const Defs: seq<Default> := [Default("status", "pending")]

  /** The fields the storage engine manages are declared properties. */
  lemma SystemFieldsDeclared()
    ensures "id" in Props && "dateCreated" in Props && "dateUpdated" in Props
  {
  }

  /** Every required field is a declared property. */
  lemma RequiredAreDeclared()
    ensures forall f :: f in Reqd ==> f in Props
  {
  }

  /** The only enumerated field is `status`, with exactly these four values. */
  lemma StatusEnumeration()
    ensures |Enums| == 1 && Enums[0].field == "status"
    ensures Enums[0].values == ["pending", "active", "suspended", "closed"]
  {
  }

  /** Every default names a declared property, and when that property is
      enumerated, the default value is one of its enumerated values. */
  lemma DefaultsAreLegal()
    ensures forall d :: d in Defs ==> d.name in Props
    ensures forall d, e :: d in Defs && e in Enums && e.field == d.name ==> d.value in e.values
  {
    assert Defs == [Default("status", "pending")];
    assert "pending" in Enums[0].values;
  }
}
