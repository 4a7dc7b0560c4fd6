/** The token file: `load_local_token` and `save_local_token`. */
module TokenStore {
  import opened Common

  /** The key under which the token is stored. */
  const TOKEN_KEY: string := "token"

  /**
   * The token file as `json.load` would see it: absent, not a JSON object
   * (so reading it raises), or a JSON object whose string/null fields are
   * kept.
   */
  datatype TokenFile = Missing | Unparsable | Object(fields: map<string, Token>)

  /** What `load_local_token` does: returns False, returns True having set the token, or raises. */
  datatype LoadOutcome = NotFound | Loaded(token: Token) | LoadRaised

  /**
   * `load_local_token`: a missing file gives False; a file that cannot be parsed
   * raises; any JSON object gives True, with the token set to `data.get('token')`,
   * which is `None` when the key is absent.
   */
  function Load(f: TokenFile): (r: LoadOutcome)
    ensures r.NotFound? <==> f == Missing
    ensures r.LoadRaised? <==> f == Unparsable
    ensures r.Loaded? && TOKEN_KEY in f.fields ==> r.token == f.fields[TOKEN_KEY]
    ensures r.Loaded? && TOKEN_KEY !in f.fields ==> r.token == None
  {
    match f
    case Missing => NotFound
    case Unparsable => LoadRaised
    case Object(fields) => Loaded(if TOKEN_KEY in fields then fields[TOKEN_KEY] else None)
  }

  /** `save_local_token`: overwrites the file with the one-field record `{'token': t}`. */
  function Save(t: Token): (f: TokenFile)
    ensures f.Object? && f.fields.Keys == {TOKEN_KEY}
    ensures Load(f) == Loaded(t)
  {
    Object(map[TOKEN_KEY := t])
  }

  /** Saving forgets whatever the file held before: two saves of one token give one file. */
  lemma SaveIsOverwrite(t: Token, u: Token)
    ensures Save(u) == Save(t) <==> u == t
  {
    if Save(u) == Save(t) {
      assert Save(u).fields[TOKEN_KEY] == u;
    }
  }
}
