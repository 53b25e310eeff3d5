/**
 The entries of the credential store and the changes made to them.
 */
module Credentials {
  import opened Options

  type Provider = string

  /** A JavaScript number that ought to be a timestamp. */
  datatype Number = Finite(n: int) | NotFinite

  /** An entry as it is stored: a static key, or an OAuth bundle with extras. */
  datatype Entry =
    | ApiKey(key: string, keySavedAt: int)
    | OAuth(access: string, refresh: string, expires: Number, savedAt: int, extras: map<string, string>)

  type Creds = map<Provider, Entry>

  /** The entries a later read of the file keeps. */
  predicate Readable(e: Entry) {
    match e
    case ApiKey(key, _) => key != ""
    case OAuth(access, refresh, expires, _, _) => access != "" && refresh != "" && expires.Finite?
  }

  /** What reading makes of stored entries: unusable ones are dropped. */
  function Sanitize(creds: Creds): Creds {
    map p | p in creds && Readable(creds[p]) :: creds[p]
  }

  predicate AllReadable(creds: Creds) {
    forall p :: p in creds ==> Readable(creds[p])
  }

  lemma {:induction false} SanitizeKeepsReadable(creds: Creds)
    ensures Sanitize(creds) == creds <==> AllReadable(creds)
    ensures AllReadable(Sanitize(creds))
  {
    if Sanitize(creds) == creds {
      forall p | p in creds ensures Readable(creds[p]) {
        assert p in Sanitize(creds);
      }
    }
  }

  /** The OAuth entry of a provider, if that is what is stored for it. */
  function OAuthEntry(creds: Creds, p: Provider): Option<Entry> {
    if p in creds && creds[p].OAuth? then Some(creds[p]) else None
  }

  /** One mutation of the store. `Fails` is a mutator that throws. */
  datatype Mutation =
    | Put(provider: Provider, entry: Entry)
    | Remove(provider: Provider)
    | Fails

  /** Whether the mutation ends in a write; removing an absent entry does not. */
  predicate Persists(creds: Creds, m: Mutation) {
    match m
    case Put(_, _) => true
    case Remove(p) => p in creds
    case Fails => false
  }

  function Mutate(creds: Creds, m: Mutation): Creds {
    match m
    case Put(p, e) => creds[p := e]
    case Remove(p) => creds - {p}
    case Fails => creds
  }

  /** The store after mutations one after another; each starts from a read of the file. */
  function MutateAll(creds: Creds, ms: seq<Mutation>): Creds
    decreases |ms|
  {
    if ms == [] then creds
    else
      var before := MutateAll(creds, ms[..|ms| - 1]);
      Mutate(Sanitize(before), ms[|ms| - 1])
  }

  /** The last of the mutations that names the provider. */
  function LastFor(ms: seq<Mutation>, p: Provider): Option<Mutation>
    decreases |ms|
  {
    if ms == [] then None
    else
      var m := ms[|ms| - 1];
      if !m.Fails? && m.provider == p then Some(m) else LastFor(ms[..|ms| - 1], p)
  }

  /**
   No update of a provider is lost: what the store holds for it is what the last
   mutation that names it left, however many others ran in between. An entry
   that reads as unusable is gone as soon as anything else is written.
   */
  lemma {:induction false} LastWriteWins(creds: Creds, ms: seq<Mutation>, p: Provider)
    requires AllReadable(creds)
    ensures var now := MutateAll(creds, ms);
            match LastFor(ms, p)
            case None => p in now <==> p in creds
            case Some(Put(_, e)) => Readable(e) ==> p in now
            case Some(Remove(_)) => p !in now
            case Some(Fails) => false
    ensures var now := MutateAll(creds, ms);
            p in now ==>
              match LastFor(ms, p)
              case None => now[p] == creds[p]
              case Some(m) => m.Put? && now[p] == m.entry
    decreases |ms|
  {
    if ms != [] {
      LastWriteWins(creds, ms[..|ms| - 1], p);
      LastKeepsReadable(creds, ms[..|ms| - 1], p);
    }
  }

  lemma {:induction false} LastKeepsReadable(creds: Creds, ms: seq<Mutation>, p: Provider)
    requires AllReadable(creds)
    ensures LastFor(ms, p) == None && p in MutateAll(creds, ms) ==> Readable(MutateAll(creds, ms)[p])
    decreases |ms|
  {
    if ms != [] {
      LastKeepsReadable(creds, ms[..|ms| - 1], p);
    }
  }
}
