/** The two helpers every decoder uses: the falsy-default attribute lookup
    and the "Y"/"N" boolean convention of the Rinnai Touch protocol. */
module Util {
  import opened Py

  /** `data.get(attribute) or defaultValue`; raises when data is not a dict. */
  function GetAttribute(data: Json, attribute: string, defaultValue: Json): (r: Result<Json>)
    ensures r.Ok? <==> data.JObj?
    ensures data.JObj? && attribute in data.fields && Truthy(data.fields[attribute])
            ==> r.value == data.fields[attribute]
    ensures data.JObj? && attribute !in data.fields ==> r.value == defaultValue
    ensures data.JObj? && attribute in data.fields && !Truthy(data.fields[attribute])
            ==> r.value == defaultValue
  {
    var v :- DictGet(data, attribute);
    Ok(Or(v, defaultValue))
  }

  /** The device writes booleans as "Y" and "N"; only "Y" reads as true. */
  predicate YNtoBool(v: Json) {
    v == JStr("Y")
  }

  /** A "Y"/"N" attribute looked up with a default that is not "Y" reads as
      true exactly when the stored value is "Y": "N", an absent key, an empty
      string, None or any other value all read as false. */
  lemma YNAttribute(data: Json, attribute: string, defaultValue: Json)
    requires data.JObj? && !YNtoBool(defaultValue)
    ensures GetAttribute(data, attribute, defaultValue).Ok?
    ensures YNtoBool(GetAttribute(data, attribute, defaultValue).value) <==> At(data, attribute) == JStr("Y")
  {
  }

  /** Comparing a looked-up attribute with a non-empty string is the same as
      comparing the stored value, whatever the default. */
  lemma AttributeEquals(data: Json, attribute: string, defaultValue: Json, s: string)
    requires data.JObj? && s != "" && defaultValue != JStr(s)
    ensures GetAttribute(data, attribute, defaultValue).Ok?
    ensures GetAttribute(data, attribute, defaultValue).value == JStr(s) <==> At(data, attribute) == JStr(s)
  {
  }
}
