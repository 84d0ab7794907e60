/** The requests the console sends to its backend, recorded in the order they are
    issued. Responses are supplied to each handler as parameters. */
module Http {
  import opened JsonValue

  datatype Request =
    | Get(path: string, params: map<string, string>)
    | Post(path: string, body: Json)
    | Delete(path: string)

  /** The query parameters of a list request filtered by status: none for the
      filter "all", otherwise the filter itself under the parameter `name`. */
  function FilterParams(name: string, filter: string): (p: map<string, string>)
    ensures filter == "all" ==> p == map[]
    ensures filter != "all" ==> p.Keys == {name} && p[name] == filter
  {
    if filter != "all" then map[name := filter] else map[]
  }
}
