/**
 One destination repository, as the calls of knock's registry port see and change it.

 A manifest is content-addressed: its digest is determined by the bytes and annotations it
 carries, so the manifest itself stands for its digest here. Referrers hang off manifests,
 never off tags.
 */
module Registry {
  import opened Wrappers

  type Tag = string

  datatype Fact = ArtifactType | PolicyName | ImportName | VariantName | Owners | Steps | Version

  /** Annotation keys: the OCI ones, and knock's own under a configured prefix. */
  datatype Key = Title | Source | BaseName | BaseDigest | Created | Revision | Vendor
               | Knock(prefix: string, fact: Fact)
               | Other(name: string)

  datatype Value = Text(text: string) | Time(time: int)

  type Annotations = map<Key, Value>

  /** Image bytes: pulled by the digest of an upstream manifest, or produced by a rebuild. */
  datatype Content = Pulled(digest: string) | Rebuilt(output: string)

  datatype Manifest = Manifest(content: Content, annotations: Annotations)

  datatype Statement = TransformStatement(sourceDigest: string, variant: string) | SbomStatement(format: string)

  datatype Referrer =
    | Mark(reason: string, at: int, policy: string, importName: string)
    | Bundle(statement: Statement)
    | Sbom(format: string, at: int)
    | Foreign(artifactType: string, text: string)

  datatype Repo = Repo(tags: map<Tag, Manifest>, attached: set<(Manifest, Referrer)>)

  function Referrers(r: Repo, m: Manifest): (s: set<Referrer>)
    ensures forall x :: x in s <==> (m, x) in r.attached
  {
    set p | p in r.attached && p.0 == m :: p.1
  }

  const HEX := "0123456789abcdef"

  predicate IsReferrersFallbackTag(tag: Tag) {
    && |tag| == 71
    && tag[..7] == "sha256-"
    && forall i | 7 <= i < 71 :: tag[i] in HEX
  }

  // ---- the calls that change a repository --------------------------------------------------------

  datatype Effect =
    | Put(tag: Tag, manifest: Manifest)             // push or copy known bytes onto a tag
    | Restamp(tag: Tag, annotations: Annotations)   // annotate in place whatever the tag names now
    | Copy(from: Tag, to: Tag)
    | Untag(tag: Tag)
    | Attach(subject: Manifest, referrer: Referrer)
    | AttachTo(tag: Tag, referrer: Referrer)        // the subject is whatever the tag names now
    | Detach(subject: Manifest, referrer: Referrer)

  predicate Possible(e: Effect, r: Repo) {
    match e
    case Put(_, _) => true
    case Restamp(t, _) => t in r.tags
    case Copy(from, _) => from in r.tags
    case Untag(t) => t in r.tags
    case Attach(_, _) => true
    case AttachTo(t, _) => t in r.tags
    case Detach(m, x) => (m, x) in r.attached
  }

  function Annotated(m: Manifest, a: Annotations): Manifest {
    Manifest(m.content, m.annotations + a)
  }

  /** The repository after a call; a call on something absent changes nothing. */
  function Do(e: Effect, r: Repo): Repo {
    if !Possible(e, r) then r
    else
      match e
      case Put(t, m) => r.(tags := r.tags[t := m])
      case Restamp(t, a) => r.(tags := r.tags[t := Annotated(r.tags[t], a)])
      case Copy(from, to) => r.(tags := r.tags[to := r.tags[from]])
      case Untag(t) => r.(tags := r.tags - {t})
      case Attach(m, x) => r.(attached := r.attached + {(m, x)})
      case AttachTo(t, x) => r.(attached := r.attached + {(r.tags[t], x)})
      case Detach(m, x) => r.(attached := r.attached - {(m, x)})
  }

  function Exec(es: seq<Effect>, r: Repo): Repo {
    if es == [] then r else Exec(es[1..], Do(es[0], r))
  }

  lemma {:induction false} ExecConcat(a: seq<Effect>, b: seq<Effect>, r: Repo)
    ensures Exec(a + b, r) == Exec(b, Exec(a, r))
  {
    if a == [] {
      assert a + b == b;
    } else {
      assert (a + b)[1..] == a[1..] + b;
      ExecConcat(a[1..], b, Do(a[0], r));
    }
  }

  function Flat(items: seq<seq<Effect>>): seq<Effect> {
    if items == [] then [] else items[0] + Flat(items[1..])
  }

  // ---- items and stages ------------------------------------------------------------------------

  /** An item is one `try` block: its calls run in order and the first that fails ends it. */
  function RunItem(item: seq<Effect>, r: Repo, outage: Effect -> bool): (Repo, bool) {
    if item == [] then (r, true)
    else if !Possible(item[0], r) || outage(item[0]) then (r, false)
    else RunItem(item[1..], Do(item[0], r), outage)
  }

  /** A stage runs its items; a failed one does not stop the others. Outcomes are in input order. */
  function RunStage(items: seq<seq<Effect>>, r: Repo, outage: Effect -> bool): (x: (Repo, seq<bool>))
    ensures |x.1| == |items|
  {
    if items == [] then (r, [])
    else
      var (r1, ok) := RunItem(items[0], r, outage);
      var (r2, oks) := RunStage(items[1..], r1, outage);
      (r2, [ok] + oks)
  }

  /** What an item leaves behind when it fails is the effect of a prefix of its calls. */
  lemma {:induction false} RunItemIsPrefix(item: seq<Effect>, r: Repo, outage: Effect -> bool) returns (n: nat)
    ensures n <= |item| && RunItem(item, r, outage).0 == Exec(item[..n], r)
    ensures RunItem(item, r, outage).1 <==> n == |item|
  {
    if item == [] || !Possible(item[0], r) || outage(item[0]) {
      n := 0;
    } else {
      var k := RunItemIsPrefix(item[1..], Do(item[0], r), outage);
      n := k + 1;
      assert item[..n][1..] == item[1..][..k];
    }
  }

  class Repository {
    var tags: map<Tag, Manifest>
    var attached: set<(Manifest, Referrer)>

    function State(): Repo
      reads this
    {
      Repo(tags, attached)
    }

    method Perform(e: Effect, outage: Effect -> bool) returns (ok: bool)
      modifies this
      ensures ok == (Possible(e, old(State())) && !outage(e))
      ensures State() == if ok then Do(e, old(State())) else old(State())
    {
      ok := Possible(e, State()) && !outage(e);
      if ok {
        match e
        case Put(t, m) => tags := tags[t := m];
        case Restamp(t, a) => tags := tags[t := Manifest(tags[t].content, tags[t].annotations + a)];
        case Copy(from, to) => tags := tags[to := tags[from]];
        case Untag(t) => tags := tags - {t};
        case Attach(m, x) => attached := attached + {(m, x)};
        case AttachTo(t, x) => attached := attached + {(tags[t], x)};
        case Detach(m, x) => attached := attached - {(m, x)};
      }
    }

    method PerformItem(item: seq<Effect>, outage: Effect -> bool) returns (ok: bool)
      modifies this
      ensures (State(), ok) == RunItem(item, old(State()), outage)
    {
      for i := 0 to |item|
        invariant RunItem(item, old(State()), outage) == RunItem(item[i..], State(), outage)
      {
        var done := Perform(item[i], outage);
        if !done {
          return false;
        }
      }
      return true;
    }

    method PerformStage(items: seq<seq<Effect>>, outage: Effect -> bool) returns (oks: seq<bool>)
      modifies this
      ensures (State(), oks) == RunStage(items, old(State()), outage)
    {
      oks := [];
      ghost var whole := RunStage(items, State(), outage);
      assert items[0..] == items && [] + whole.1 == whole.1;
      for i := 0 to |items|
        invariant |oks| == i
        invariant var (r, rest) := RunStage(items[i..], State(), outage); whole == (r, oks + rest)
      {
        ghost var rest := RunStage(items[i..], State(), outage).1;
        assert items[i..][1..] == items[i + 1..];
        var ok := PerformItem(items[i], outage);
        assert oks + rest == oks + [ok] + rest[1..];
        oks := oks + [ok];
      }
      assert items[|items|..] == [] && oks + [] == oks;
    }
  }
}
