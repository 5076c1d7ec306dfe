/** The library and pydantic functions the arena journal is built on, as one record of functions.
    Every theorem holds for all of them that meet Sound. */
module Arena {
  import opened Values

  datatype Arena = Arena(
    sha: string -> string,                         // sha256 of UTF-8 text, in hex
    dumps: Json -> string,                         // canonical(value)
    loads: string -> Option<Json>,                 // json.loads
    validateTask: Json -> Option<Json>,            // TaskSpec.model_validate, then to_dict
    parseProposal: string -> Option<Json>,         // parse_proposal, then model_dump
    evaluate: (Json, Json, string) -> Json,        // planners.evaluate at a given time
    isFresh: (Json, string) -> bool                  // TaskSpec.fresh
  )

  ghost predicate InjectiveSha(e: Arena) {
    forall a, b {:trigger e.sha(a), e.sha(b)} :: e.sha(a) == e.sha(b) ==> a == b
  }

  ghost predicate RoundTrips(e: Arena) {
    forall v :: e.loads(e.dumps(v)) == Some(v)
  }

  /** No two texts share a sha256, and decoding undoes canonical encoding. */
  ghost predicate Sound(e: Arena) {
    InjectiveSha(e) && RoundTrips(e)
  }

  function Digest(e: Arena, v: Json): string {
    e.sha(e.dumps(v))
  }

  lemma DigestInjective(e: Arena, a: Json, b: Json)
    requires Sound(e) && Digest(e, a) == Digest(e, b)
    ensures a == b
  {
    assert e.dumps(a) == e.dumps(b);
    assert e.loads(e.dumps(a)) == Some(a) && e.loads(e.dumps(b)) == Some(b);
  }

  function TaskHash(e: Arena, task: Json): string {
    Digest(e, Obj(map["domain" := Str("safehire-acceptance-task-v2"), "task" := task]))
  }

  lemma TaskHashInjective(e: Arena, a: Json, b: Json)
    requires Sound(e) && TaskHash(e, a) == TaskHash(e, b)
    ensures a == b
  {
    var x := map["domain" := Str("safehire-acceptance-task-v2"), "task" := a];
    var y := map["domain" := Str("safehire-acceptance-task-v2"), "task" := b];
    DigestInjective(e, Obj(x), Obj(y));
    assert x["task"] == y["task"];
  }
}
