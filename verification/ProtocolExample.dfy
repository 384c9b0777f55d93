/** The hypotheses are consistent: a hash and a time format that meet them for all contents, and runs that finish jobs. */
module ProtocolExample {
  import opened Wrappers
  import opened FileBytes
  import opened Protocol
  import opened ProtocolRuns
  import opened ProtocolRecords
  import opened ProtocolProgress
  import SF = ServerFile

  /** A collision free hash: the bytes as characters, after a mark that keeps it from being empty. */
  function Spelled(b: Bytes): string {
    "#" + seq(|b|, i requires 0 <= i < |b| => b[i] as char)
  }

  lemma SpelledTwice(a: Bytes, b: Bytes)
    requires Spelled(a) == Spelled(b)
    ensures a == b
  {
    assert |a| == |b|;
    forall i | 0 <= i < |a| ensures a[i] == b[i] {
      assert Spelled(a)[i + 1] == a[i] as char && Spelled(b)[i + 1] == b[i] as char;
    }
  }

  /** Instants from the epoch on as decimal numbers; earlier ones have no text. */
  function NumberedTime(t: int): Option<string> {
    if t >= 0 then Some(SF.Decimal(t)) else None
  }

  function TimeOfNumber(s: string): Option<int> {
    if s == "" || SF.DigitsValue(s) == None then None else Some(SF.DigitsValue(s).value)
  }

  const NUMBERED := SF.TimeFormat(NumberedTime, TimeOfNumber)

  lemma Untrimmed(s: string)
    requires forall k :: 0 <= k < |s| ==> !SF.IsSpace(s[k])
    ensures SF.TrimSpace(s) == s
  {
  }

  lemma NumberedIsValid()
    ensures SF.ValidFormat(NUMBERED)
  {
    forall t: int | NUMBERED.enc(t).Some?
      ensures var s := NUMBERED.enc(t).value; NUMBERED.dec(s) == Some(t) && '*' !in s && SF.TrimSpace(s) == s
    {
      SF.DecimalValue(t);
      SF.DecimalChars(t);
      Untrimmed(SF.Decimal(t));
    }
  }

  /** The world of some client files. */
  function World(content: map<string, Bytes>, reportsSize: bool): Env {
    Env(content, Spelled, NUMBERED, reportsSize)
  }

  ghost predicate Storable(content: map<string, Bytes>) {
    forall p :: p in content ==> |content[p]| < INT63_LIMIT && SF.Plain(p)
  }

  lemma WorldIsValid(content: map<string, Bytes>, reportsSize: bool)
    requires Storable(content)
    ensures ValidEnv(World(content, reportsSize)) && NoCollision(World(content, reportsSize))
  {
    var env := World(content, reportsSize);
    NumberedIsValid();
    forall b: Bytes ensures env.hash(b) != "" {
      assert Spelled(b)[0] == '#';
    }
    forall b: Bytes, p | p in env.content && env.hash(b) == env.hash(env.content[p]) ensures b == env.content[p] {
      SpelledTwice(b, env.content[p]);
    }
    forall p, k, q | p in env.content && q in env.content && 0 <= k <= |env.content[p]|
                     && env.hash(env.content[p][..k]) == env.hash(env.content[q])
      ensures env.content[p][..k] == env.content[q]
    {
      SpelledTwice(env.content[p][..k], env.content[q]);
    }
  }

  const EMPTY := System(Server(map[], map[], map[], map[]), [])

  const META := QueryMeta("", 1, 1, 1, 1, false, false)

  lemma MetaIsGood(content: map<string, Bytes>, reportsSize: bool)
    ensures GoodMeta(World(content, reportsSize), META)
  {
  }

  lemma EmptyIsFine(env: Env, path: string)
    requires path in env.content
    ensures Begun(env, EMPTY) && DiskOkAt(env, EMPTY.server, path)
  {
  }

  lemma StoreFromEmpty(env: Env, path: string, client: string)
    requires ValidEnv(env) && GoodMeta(env, META) && path in env.content
    ensures exists steps :: Legal(env, EMPTY, steps, path) && Finished(env, Run(env, EMPTY, steps), path)
  {
    EmptyIsFine(env, path);
    assert Legal(env, EMPTY, [], path) && Run(env, EMPTY, []) == EMPTY && TimelyRun([]);
    EveryJobCanFinish(env, EMPTY, [], client, path, META);
  }

  /** Whatever the client files are, there is a run from the empty server, under all the hypotheses, that stores any of them. */
  lemma AnyFileCanBeStored(content: map<string, Bytes>, path: string, client: string, reportsSize: bool)
    requires Storable(content) && path in content
    ensures var env := World(content, reportsSize);
            && ValidEnv(env) && Begun(env, EMPTY) && DiskOkAt(env, EMPTY.server, path)
            && exists steps :: Legal(env, EMPTY, steps, path) && Finished(env, Run(env, EMPTY, steps), path)
  {
    WorldIsValid(content, reportsSize);
    MetaIsGood(content, reportsSize);
    EmptyIsFine(World(content, reportsSize), path);
    StoreFromEmpty(World(content, reportsSize), path, client);
  }
}
