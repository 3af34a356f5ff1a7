/** A decoded JSON document, as `response.json()` hands it to the bot.
    Objects are maps, so the order of their keys is not represented. */
module JsonValues {

  datatype Json =
    | JNull
    | JBool(b: bool)
    | JInt(i: int)
    | JStr(s: string)
    | JList(items: seq<Json>)
    | JObject(fields: map<string, Json>)
}
