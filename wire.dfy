/** JSON as it travels between the page and the service: an object is a map
    from keys to values, and only string values matter to either side. */
module Wire {

  datatype Json = JString(s: string) | JOther

  type JsonObject = map<string, Json>
}
