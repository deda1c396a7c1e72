/** A JSON document as a tree. `json.Marshal` and `json.Unmarshal` are library code; the model
    carries request bodies as these trees and leaves their serialisation out. */
module Json {
  import opened Wrappers

  datatype Json =
    | JString(text: string)
    | JBool(flag: bool)
    | JObject(members: seq<(string, Json)>)

  /** The value of the first member named `key`, as a decoder reading an object would find it. */
  function Member(members: seq<(string, Json)>, key: string): Option<Json>
  {
    if |members| == 0 then None
    else if members[0].0 == key then Some(members[0].1)
    else Member(members[1..], key)
  }
}
