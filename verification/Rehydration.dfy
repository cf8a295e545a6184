// What survives a restart. A sandbox's fixed facts are stamped on its container
// as labels, environment and resource limits; a fresh manager reads them back.
module Rehydration {
  import opened Common
  import opened SandboxModel

  datatype ContainerState = CRunning | CPaused | CStopped

  // The runtime's view of one managed container.
  datatype ManagedContainer = ManagedContainer(
    sandboxID: Id, containerID: string, image: string,
    labels: map<string, string>, envVars: map<string, string>, state: ContainerState,
    cpuCount: int, memoryMB: int, createdAt: Time, agentHost: string, agentPort: int)

  // The in-memory runtime's report; stopped wins over paused.
  function Managed(id: Id, c: Container): ManagedContainer {
    var state := if c.stopped then CStopped else if c.paused then CPaused else CRunning;
    ManagedContainer(id, c.spec.containerID, c.spec.image, c.spec.labels, c.spec.envs, state,
                     c.spec.cpuCount, c.spec.memoryMB, c.spec.createdAt,
                     if c.stopped then "" else c.spec.agentHost, c.spec.agentPort)
  }

  // Reading a key a Go map does not hold yields the empty string.
  function Lookup(m: map<string, string>, k: string): string {
    if k in m then m[k] else ""
  }

  function ExtractMetadata(labels: map<string, string>): map<string, string> {
    map m | m in (set k | k in labels && IsMetaKey(k) :: MetaName(k)) && MetaKey(m) in labels :: labels[MetaKey(m)]
  }

  function ExtractUserEnv(env: map<string, string>): map<string, string> {
    map k | k in env && !HasPrefix(k, ENV_PREFIX) :: env[k]
  }

  function FromManaged(mc: ManagedContainer): Sandbox {
    var own := Lookup(mc.labels, LABEL_TEMPLATE_ID);
    Sandbox(
      Profile(if own == "" then Lookup(mc.labels, LABEL_IMAGE_TEMPLATE_ID) else own,
              Lookup(mc.labels, LABEL_TEMPLATE_ALIAS), mc.containerID,
              Lookup(mc.labels, LABEL_TOKEN_ENVD), Lookup(mc.labels, LABEL_TOKEN_TRAFFIC),
              Lookup(mc.labels, LABEL_ON_TIMEOUT),
              ExtractMetadata(mc.labels), ExtractUserEnv(mc.envVars),
              mc.createdAt, mc.cpuCount, mc.memoryMB),
      mc.agentHost, mc.agentPort,
      if mc.state == CRunning then Running else Paused,
      match mc.state { case CRunning => NoMode case CPaused => Frozen case CStopped => Stopped },
      ZERO_TIME, ZERO_TIME)
  }

  // Deadlines and pause times are not persisted and get defaults.
  function Recover(mc: ManagedContainer, now: Time, defaultTimeout: Time): Sandbox {
    var s := FromManaged(mc);
    var t := if defaultTimeout <= 0 then DEFAULT_TIMEOUT else defaultTimeout;
    var timed := if s.state == Paused then s.(pausedAt := now, expiresAt := mc.createdAt) else s.(expiresAt := now + t);
    if timed.profile.onTimeout == "" then timed.(profile := timed.profile.(onTimeout := ON_TIMEOUT_KILL)) else timed
  }

  // Sandboxes already registered keep their live record.
  function RehydrateFrom(reg: Registry, listed: map<Id, ManagedContainer>, now: Time, defaultTimeout: Time): Registry {
    RecoverAll(listed, now, defaultTimeout) + reg
  }

  function RecoverAll(listed: map<Id, ManagedContainer>, now: Time, defaultTimeout: Time): Registry {
    MapValues((mc: ManagedContainer) => Recover(mc, now, defaultTimeout), listed)
  }

  function ListManaged(cs: Containers): map<Id, ManagedContainer> {
    map id | id in cs :: Managed(id, cs[id])
  }

  const START_VAR := "EDVABE_START_CMD"
  const READY_VAR := "EDVABE_READY_CMD"

  // The labels FromManaged reads that a new container carries.
  ghost const OWN_KEYS: set<string> :=
    {LABEL_TEMPLATE_ID, LABEL_TEMPLATE_ALIAS, LABEL_TOKEN_ENVD, LABEL_TOKEN_TRAFFIC, LABEL_ON_TIMEOUT}

  // ------------------------------------------------------------ label lemmas

  // The manager's own labels and metadata labels never collide.
  lemma OwnKeysAreNotMeta()
    ensures forall k | k in OWN_KEYS + {LABEL_IMAGE_TEMPLATE_ID} :: !IsMetaKey(k)
  {
    NotMeta(LABEL_TEMPLATE_ID); NotMeta(LABEL_TEMPLATE_ALIAS); NotMeta(LABEL_TOKEN_ENVD);
    NotMeta(LABEL_TOKEN_TRAFFIC); NotMeta(LABEL_ON_TIMEOUT); NotMeta(LABEL_IMAGE_TEMPLATE_ID);
  }

  lemma NotMeta(k: string)
    requires |k| > 7 && k[7] != 'm'
    ensures !IsMetaKey(k)
  {
    assert LABEL_META_PREFIX[7] == 'm';
  }

  // Stamping then reading metadata is the identity, over any labels without
  // the metadata prefix, and leaves those labels readable.
  lemma MetadataRoundTrip(labels: map<string, string>, metadata: map<string, string>)
    requires forall k | k in labels :: !IsMetaKey(k)
    ensures ExtractMetadata(StampMetadata(labels, metadata)) == metadata
    ensures forall k | !IsMetaKey(k) :: Lookup(StampMetadata(labels, metadata), k) == Lookup(labels, k)
  {
    StampedMetadataIsRead(labels, metadata);
  }

  lemma StampedMetadataIsRead(labels: map<string, string>, metadata: map<string, string>)
    requires forall k | k in labels :: !IsMetaKey(k)
    ensures ExtractMetadata(StampMetadata(labels, metadata)) == metadata
  {
    MetaKeyInverse();
    var got := ExtractMetadata(StampMetadata(labels, metadata));
    forall m
      ensures m in metadata <==> m in got
      ensures m in metadata ==> got[m] == metadata[m]
    {
      StampedAt(labels, metadata, m);
    }
  }

  // One metadata entry, stamped and read.
  lemma StampedAt(labels: map<string, string>, metadata: map<string, string>, m: string)
    requires forall k | k in labels :: !IsMetaKey(k)
    ensures m in metadata <==> m in ExtractMetadata(StampMetadata(labels, metadata))
    ensures m in metadata ==> ExtractMetadata(StampMetadata(labels, metadata))[m] == metadata[m]
  {
    assert IsMetaKey(MetaKey(m)) && MetaName(MetaKey(m)) == m;
  }

  // The user's environment comes back exactly when no key has the bootstrap
  // prefix: such keys are taken for the manager's own and dropped.
  lemma UserEnvRoundTrip(env: map<string, string>)
    ensures ExtractUserEnv(env) == env <==> forall k | k in env :: !HasPrefix(k, ENV_PREFIX)
  {
  }

  // ------------------------------------------------------------- round trips

  // What a restart must bring back of a sandbox created from req at time t.
  function RecoverableProfile(req: CreateRequest, spec: ContainerSpec): Profile {
    Profile(req.templateID, req.alias, spec.containerID, req.envdToken, req.trafficToken, req.onTimeout,
            req.metadata, ExtractUserEnv(req.envVars), spec.createdAt, req.cpuCount, req.memoryMB)
  }

  lemma OwnLabels(req: CreateRequest)
    ensures var labels := SandboxLabels(req);
      && labels.Keys <= OWN_KEYS
      && Lookup(labels, LABEL_TEMPLATE_ID) == req.templateID
      && Lookup(labels, LABEL_TEMPLATE_ALIAS) == req.alias
      && Lookup(labels, LABEL_TOKEN_ENVD) == req.envdToken
      && Lookup(labels, LABEL_TOKEN_TRAFFIC) == req.trafficToken
      && Lookup(labels, LABEL_ON_TIMEOUT) == req.onTimeout
  {
    assert |LABEL_TEMPLATE_ID| == 26 && |LABEL_TEMPLATE_ALIAS| == 29 && |LABEL_TOKEN_ENVD| == 25;
    assert |LABEL_TOKEN_TRAFFIC| == 28 && |LABEL_ON_TIMEOUT| == 24;
  }

  // Every label and the metadata of a request can be read off its stamped map,
  // over any base map that has the manager's own labels.
  lemma LabelsReadBack(req: CreateRequest, base: map<string, string>)
    requires forall k | k in base :: !IsMetaKey(k)
    ensures var labels := StampMetadata(base, req.metadata);
      && ExtractMetadata(labels) == req.metadata
      && forall k | k in OWN_KEYS :: Lookup(labels, k) == Lookup(base, k)
  {
    MetadataRoundTrip(base, req.metadata);
    OwnKeysAreNotMeta();
  }

  // Restart round trip: from the container alone a fresh manager recovers the
  // whole profile of the sandbox it was created for (its environment without
  // keys of the bootstrap prefix), and records the container as it is.
  lemma RestartRoundTrip(req: CreateRequest, created: Time, c: Container, now: Time, defaultTimeout: Time)
    requires req.templateID != "" && req.onTimeout != ""
    requires c.spec == NewContainer(req, created).spec && !(c.paused && c.stopped)
    ensures var s := Recover(Managed(req.id, c), now, defaultTimeout);
      && s.profile == RecoverableProfile(req, c.spec)
      && Matches(s, c)
      && (s.state == Paused ==> s.pausedAt == now)
      && (s.state == Running ==>
            s.expiresAt > now && s.agentHost == c.spec.agentHost && s.agentPort == c.spec.agentPort)
  {
    OwnKeysAreNotMeta();
    OwnLabels(req);
    LabelsReadBack(req, SandboxLabels(req));
  }

  // ------------------------------------------------- the same through Docker

  const INT64_MODULUS := 0x1_0000_0000_0000_0000
  const INT64_MAX := 0x7fff_ffff_ffff_ffff
  const NANO := 1_000_000_000
  const MEBI := 1_048_576

  // Two's-complement wrap-around of 64-bit products.
  function Wrap64(n: int): int {
    var m := n % INT64_MODULUS;
    if m > INT64_MAX then m - INT64_MODULUS else m
  }

  // A limit handed to Docker and read back: only positive values are set, and
  // only positive values are read.
  function ScaleLimit(limit: int, unit: int): int {
    if limit > 0 then Wrap64(limit * unit) else 0
  }

  function UnscaleLimit(raw: int, unit: int): int
    requires unit > 0
  {
    if raw > 0 then raw / unit else 0
  }

  // The limit survives exactly when the scaled value fits in 64 bits.
  lemma LimitRoundTrip(limit: int, unit: int)
    requires 0 < limit && 0 < unit
    ensures UnscaleLimit(ScaleLimit(limit, unit), unit) == limit <==> limit * unit <= INT64_MAX
  {
    var raw := ScaleLimit(limit, unit);
    Positive(limit, unit);
    if limit * unit <= INT64_MAX {
      assert raw == limit * unit;
      DivBounds(raw, unit, limit);
    } else if raw > 0 {
      DivBounds(raw, unit, limit);
    }
  }

  lemma Positive(a: int, b: int)
    requires a > 0 && b > 0
    ensures a * b > 0
  {
  }

  lemma DivBounds(raw: int, unit: int, limit: int)
    requires raw > 0 && unit > 0
    ensures raw < limit * unit ==> raw / unit < limit
    ensures raw == limit * unit ==> raw / unit == limit
  {
    var q, r := raw / unit, raw % unit;
    assert raw == q * unit + r;
    if q < limit { MulMono(q + 1, limit, unit); }
    if q > limit { MulMono(limit + 1, q, unit); }
    assert (q + 1) * unit == q * unit + unit && (limit + 1) * unit == limit * unit + unit;
  }

  lemma MulMono(a: int, b: int, c: int)
    requires a <= b && c >= 0
    ensures a * c <= b * c
  {
  }

  // The environment is passed as a list of key=value strings in any order ...
  ghost predicate IsEnvList(env: map<string, string>, list: seq<string>) {
    && (forall k | k in env :: k + "=" + env[k] in list)
    && (forall kv | kv in list :: exists k | k in env :: kv == k + "=" + env[k])
  }

  // ... and read back by cutting each at its first equals sign.
  function CutAt(kv: string): (n: nat)
    ensures n <= |kv| && '=' !in kv[..n] && (n < |kv| ==> kv[n] == '=')
  {
    if kv == [] || kv[0] == '=' then 0
    else
      var n := 1 + CutAt(kv[1..]);
      assert kv[..n] == [kv[0]] + kv[1..][..n - 1];
      n
  }

  function ParseEnvList(list: seq<string>): map<string, string> {
    if list == [] then map[]
    else
      var rest, kv := ParseEnvList(list[..|list| - 1]), list[|list| - 1];
      if CutAt(kv) == |kv| then rest else rest[kv[..CutAt(kv)] := kv[CutAt(kv) + 1..]]
  }

  function WithInitVars(env: map<string, string>, startCmd: string, readyCmd: string): map<string, string> {
    env + (if startCmd != "" then map[START_VAR := startCmd] else map[])
        + (if readyCmd != "" then map[READY_VAR := readyCmd] else map[])
  }

  lemma CutPair(k: string, v: string)
    requires '=' !in k
    ensures var kv := k + "=" + v; CutAt(kv) == |k| && kv[..|k|] == k && kv[|k| + 1..] == v
  {
    var kv := k + "=" + v;
    assert kv[|k|] == '=' && kv[..|k|] == k;
  }

  lemma {:induction false} ParsedFromList(env: map<string, string>, list: seq<string>)
    requires forall k | k in env :: '=' !in k
    requires forall kv | kv in list :: exists k | k in env :: kv == k + "=" + env[k]
    ensures var got := ParseEnvList(list);
      && (forall k | k in got :: k in env && got[k] == env[k])
      && (forall k | k in env && k + "=" + env[k] in list :: k in got)
  {
    if list != [] {
      var rest, kv := list[..|list| - 1], list[|list| - 1];
      assert list == rest + [kv];
      assert kv in list && forall x | x in rest :: x in list;
      ParsedFromList(env, rest);
      var k :| k in env && kv == k + "=" + env[k];
      CutPair(k, env[k]);
      forall j | j in env && j + "=" + env[j] == kv ensures j == k { CutPair(j, env[j]); }
    }
  }

  lemma {:induction false} ParsedKeysHaveNoEquals(list: seq<string>)
    ensures forall k | k in ParseEnvList(list) :: '=' !in k
  {
    if list != [] { ParsedKeysHaveNoEquals(list[..|list| - 1]); }
  }

  // The environment survives the list form exactly when no key holds '='.
  lemma EnvListRoundTrip(env: map<string, string>, list: seq<string>)
    requires IsEnvList(env, list)
    ensures ParseEnvList(list) == env <==> forall k | k in env :: '=' !in k
  {
    ParsedKeysHaveNoEquals(list);
    if forall k | k in env :: '=' !in k { ParsedFromList(env, list); }
  }

  // Docker's view of a container: environment list and raw limits.
  datatype DockerContainer = DockerContainer(
    id: string, image: string, created: Time, env: seq<string>, labels: map<string, string>, nanoCPUs: int, memory: int,
    status: ContainerState, host: string)

  // What the image a container starts from brings along: the labels of its
  // build and the environment of its ENV instructions.
  datatype DockerImage = DockerImage(labels: map<string, string>, env: seq<string>)

  const LABEL_SANDBOX_ID := "edvabe.sandbox.id"
  const LABEL_MANAGED := "edvabe.managed"

  // The labels asked for: the caller's, the runtime's own over them, metadata
  // over both.
  function DockerLabels(req: CreateRequest): map<string, string> {
    StampMetadata(SandboxLabels(req)[LABEL_SANDBOX_ID := req.id][LABEL_MANAGED := "true"], req.metadata)
  }

  // Docker adds the image's environment where the request has no such key.
  function MergeEnv(asked: seq<string>, image: seq<string>): seq<string> {
    if image == [] then asked
    else
      var kv := image[|image| - 1];
      var merged := MergeEnv(asked, image[..|image| - 1]);
      if exists i | 0 <= i < |asked| :: KeyOf(asked[i]) == KeyOf(kv) then merged else merged + [kv]
  }

  function KeyOf(kv: string): string { kv[..CutAt(kv)] }

  // A container as Docker reports it: labels and environment of the request
  // over those of the image.
  ghost predicate DockerCreated(req: CreateRequest, image: DockerImage, asked: seq<string>, d: DockerContainer) {
    && d.image == req.image
    && d.labels == image.labels + DockerLabels(req)
    && IsEnvList(WithInitVars(req.envVars, req.startCmd, req.readyCmd), asked)
    && d.env == MergeEnv(asked, image.env)
    && d.nanoCPUs == ScaleLimit(req.cpuCount, 1_000_000_000)
    && d.memory == ScaleLimit(req.memoryMB, 1_048_576)
  }

  function DockerManaged(id: Id, d: DockerContainer): ManagedContainer {
    ManagedContainer(id, d.id, d.image, d.labels, ParseEnvList(d.env), d.status,
                     UnscaleLimit(d.nanoCPUs, NANO), UnscaleLimit(d.memory, MEBI), d.created,
                     if d.status == CStopped then "" else d.host, DEFAULT_AGENT_PORT)
  }

  lemma RuntimeLabelsApart()
    ensures LABEL_SANDBOX_ID !in OWN_KEYS && LABEL_MANAGED !in OWN_KEYS
    ensures !IsMetaKey(LABEL_SANDBOX_ID) && !IsMetaKey(LABEL_MANAGED)
  {
    assert |LABEL_SANDBOX_ID| == 17 && |LABEL_MANAGED| == 14;
    assert |LABEL_TEMPLATE_ID| == 26 && |LABEL_TEMPLATE_ALIAS| == 29 && |LABEL_TOKEN_ENVD| == 25;
    assert |LABEL_TOKEN_TRAFFIC| == 28 && |LABEL_ON_TIMEOUT| == 24;
    assert LABEL_SANDBOX_ID[7] == 's' && LABEL_MANAGED[8] == 'a' && LABEL_META_PREFIX[7] == 'm' &&
        LABEL_META_PREFIX[8] == 'e';
  }

  lemma DockerLabelsReadBack(req: CreateRequest)
    ensures ExtractMetadata(DockerLabels(req)) == req.metadata
    ensures forall k | k in OWN_KEYS :: Lookup(DockerLabels(req), k) == Lookup(SandboxLabels(req), k)
    ensures forall k | k in OWN_KEYS :: k in DockerLabels(req) <==> k in SandboxLabels(req)
  {
    RuntimeLabelsApart();
    OwnKeysAreNotMeta();
    var base := SandboxLabels(req)[LABEL_SANDBOX_ID := req.id][LABEL_MANAGED := "true"];
    LabelsReadBack(req, base);
    StampMeaning(base, req.metadata);
  }

  lemma RuntimeLabelsAreSet(req: CreateRequest)
    ensures Lookup(DockerLabels(req), "edvabe.sandbox.id") == req.id
    ensures Lookup(DockerLabels(req), "edvabe.managed") == "true"
  {
    RuntimeLabelsApart();
    assert |LABEL_SANDBOX_ID| == 17 && |LABEL_MANAGED| == 14;
    StampMeaning(SandboxLabels(req)[LABEL_SANDBOX_ID := req.id][LABEL_MANAGED := "true"], req.metadata);
  }

  // An image's metadata labels show through where the request has no entry of
  // that name.
  lemma ImageMetadata(image: map<string, string>, asked: map<string, string>)
    ensures ExtractMetadata(image + asked) == ExtractMetadata(asked)
       <==> forall k | k in image && IsMetaKey(k) :: k in asked
  {
    MetaKeyInverse();
    var all, own := ExtractMetadata(image + asked), ExtractMetadata(asked);
    forall k | k in image && IsMetaKey(k)
      ensures k !in asked ==> MetaName(k) in all && MetaName(k) !in own
    {
      assert MetaKey(MetaName(k)) == k;
    }
    if forall k | k in image && IsMetaKey(k) :: k in asked {
      forall m
        ensures m in all <==> m in own
      {
        assert MetaName(MetaKey(m)) == m;
      }
      assert all == own;
    }
  }

  // Of the manager's own labels only the alias of an image can show through,
  // where the request has none.
  lemma ImageLabels(req: CreateRequest, image: map<string, string>)
    requires req.templateID != "" && req.onTimeout != ""
    ensures var labels := image + DockerLabels(req);
      && Lookup(labels, LABEL_TEMPLATE_ID) == req.templateID
      && Lookup(labels, LABEL_TOKEN_ENVD) == req.envdToken
      && Lookup(labels, LABEL_TOKEN_TRAFFIC) == req.trafficToken
      && Lookup(labels, LABEL_ON_TIMEOUT) == req.onTimeout
      && Lookup(labels, LABEL_TEMPLATE_ALIAS) == (if req.alias != "" then req.alias
          else Lookup(image, LABEL_TEMPLATE_ALIAS))
  {
    OwnLabels(req);
    StampedOwnLabels(req);
    DockerLabelsReadBack(req);
    LookupOver(image, DockerLabels(req));
  }

  lemma LookupOver(image: map<string, string>, asked: map<string, string>)
    ensures forall k :: Lookup(image + asked, k) == if k in asked then asked[k] else Lookup(image, k)
  {
  }

  lemma StampedOwnLabels(req: CreateRequest)
    ensures var labels := SandboxLabels(req);
      && LABEL_TEMPLATE_ID in labels && LABEL_TOKEN_ENVD in labels && LABEL_TOKEN_TRAFFIC in labels
      && (LABEL_ON_TIMEOUT in labels <==> req.onTimeout != "") && (LABEL_TEMPLATE_ALIAS in labels <==> req.alias != "")
  {
    assert |LABEL_TEMPLATE_ID| == 26 && |LABEL_TEMPLATE_ALIAS| == 29 && |LABEL_TOKEN_ENVD| == 25;
    assert |LABEL_TOKEN_TRAFFIC| == 28 && |LABEL_ON_TIMEOUT| == 24;
  }

  lemma ImageMetadataShows(req: CreateRequest, image: map<string, string>)
    ensures ExtractMetadata(image + DockerLabels(req)) == req.metadata
       <==> forall k | k in image && IsMetaKey(k) :: MetaName(k) in req.metadata
  {
    DockerLabelsReadBack(req);
    RuntimeLabelsApart();
    OwnKeysAreNotMeta();
    OwnLabels(req);
    var base := SandboxLabels(req)[LABEL_SANDBOX_ID := req.id][LABEL_MANAGED := "true"];
    StampMeaning(base, req.metadata);
    ImageMetadata(image, DockerLabels(req));
    assert forall k | IsMetaKey(k) :: k in DockerLabels(req) <==> MetaName(k) in req.metadata;
  }

  // ------------------------------------------------- the merged environment

  lemma {:induction false} ParsedHasTheKeys(list: seq<string>, key: string)
    ensures key in ParseEnvList(list) <==>
        exists i | 0 <= i < |list| :: CutAt(list[i]) < |list[i]| && KeyOf(list[i]) == key
  {
    if list != [] {
      var front := list[..|list| - 1];
      ParsedHasTheKeys(front, key);
      if i :| 0 <= i < |list| && CutAt(list[i]) < |list[i]| && KeyOf(list[i]) == key {
        if i < |front| { assert front[i] == list[i]; }
      }
      if i :| 0 <= i < |front| && CutAt(front[i]) < |front[i]| && KeyOf(front[i]) == key { assert list[i] == front[i]; }
      var last := list[|list| - 1];
      if CutAt(last) < |last| && KeyOf(last) == key { assert KeyOf(list[|list| - 1]) == key; }
    }
  }

  // Every line asked for has an equals sign.
  ghost predicate AllPairs(asked: seq<string>) { forall i | 0 <= i < |asked| :: CutAt(asked[i]) < |asked[i]| }

  // One line of an environment list, read onto what came before it.
  function ReadLine(before: map<string, string>, kv: string): map<string, string> {
    if CutAt(kv) == |kv| then before else before[KeyOf(kv) := kv[CutAt(kv) + 1..]]
  }

  lemma ParseOneMore(list: seq<string>, kv: string)
    ensures ParseEnvList(list + [kv]) == ReadLine(ParseEnvList(list), kv)
  {
    assert (list + [kv])[..|list|] == list;
  }

  lemma ReadUnder(theirs: map<string, string>, mine: map<string, string>, kv: string)
    ensures KeyOf(kv) in mine ==> ReadLine(theirs, kv) + mine == theirs + mine
    ensures KeyOf(kv) !in mine ==> ReadLine(theirs, kv) + mine == ReadLine(theirs + mine, kv)
  {
  }

  lemma {:induction false} MergeIsOverride(asked: seq<string>, image: seq<string>)
    requires AllPairs(asked)
    ensures ParseEnvList(MergeEnv(asked, image)) == ParseEnvList(image) + ParseEnvList(asked)
  {
    if image == [] {
      assert ParseEnvList(image) + ParseEnvList(asked) == ParseEnvList(asked);
    } else {
      var front, kv := image[..|image| - 1], image[|image| - 1];
      MergeIsOverride(asked, front);
      ParsedHasTheKeys(asked, KeyOf(kv));
      ParseOneMore(front, kv);
      ParseOneMore(MergeEnv(asked, front), kv);
      ReadUnder(ParseEnvList(front), ParseEnvList(asked), kv);
      assert image == front + [kv];
    }
  }

  lemma EnvListIsPairs(env: map<string, string>, list: seq<string>)
    requires IsEnvList(env, list)
    ensures AllPairs(list)
  {
    forall i | 0 <= i < |list|
      ensures CutAt(list[i]) < |list[i]|
    {
      assert list[i] in list;
      var k :| k in env && list[i] == k + "=" + env[k];
      assert list[i][|k|] == '=';
    }
  }

  // Keys with the bootstrap prefix keep it however they are cut.
  lemma PrefixSurvivesCut(k: string, v: string)
    requires HasPrefix(k, ENV_PREFIX)
    ensures HasPrefix(KeyOf(k + "=" + v), ENV_PREFIX)
  {
    var kv, n := k + "=" + v, |ENV_PREFIX|;
    assert n == 7 && '=' !in ENV_PREFIX;
    assert kv[..n] == k[..n] == ENV_PREFIX;
    assert forall i | 0 <= i < n :: kv[i] == kv[..n][i] != '=';
    assert KeyOf(kv)[..n] == kv[..n];
  }

  // What is read back, bootstrap keys aside, is what was asked for, when the
  // other keys hold no equals sign.
  lemma {:induction false} UserPartFromList(env: map<string, string>, list: seq<string>)
    requires forall k | k in env && !HasPrefix(k, ENV_PREFIX) :: '=' !in k
    requires forall kv | kv in list :: exists k | k in env :: kv == k + "=" + env[k]
    ensures var got := ParseEnvList(list);
      && (forall k | k in got && !HasPrefix(k, ENV_PREFIX) :: k in env && got[k] == env[k])
      && (forall k | k in env && !HasPrefix(k, ENV_PREFIX) && k + "=" + env[k] in list :: k in got)
  {
    if list != [] {
      var rest, kv := list[..|list| - 1], list[|list| - 1];
      assert list == rest + [kv];
      assert kv in list && forall x | x in rest :: x in list;
      UserPartFromList(env, rest);
      var k :| k in env && kv == k + "=" + env[k];
      if HasPrefix(k, ENV_PREFIX) { PrefixSurvivesCut(k, env[k]); } else { CutPair(k, env[k]); }
      forall j | j in env && !HasPrefix(j, ENV_PREFIX) && j + "=" + env[j] == kv
        ensures KeyOf(kv) == j
      {
        CutPair(j, env[j]);
      }
    }
  }

  lemma InitVarsAside(req: CreateRequest, k: string)
    requires !HasPrefix(k, ENV_PREFIX)
    ensures var all := WithInitVars(req.envVars, req.startCmd, req.readyCmd);
      (k in all <==> k in req.envVars) && (k in all ==> all[k] == req.envVars[k])
  {
    InitVarNames();
  }

  // None of the user's own keys holds an equals sign.
  ghost predicate UserKeysCut(env: map<string, string>) {
    forall k | k in env && !HasPrefix(k, ENV_PREFIX) :: '=' !in k
  }

  // An image adds no key of its own.
  ghost predicate AddsNoKey(theirs: map<string, string>, env: map<string, string>) {
    forall k | k in theirs && !HasPrefix(k, ENV_PREFIX) :: k in env
  }

  lemma AskedUserPart(req: CreateRequest, asked: seq<string>)
    requires IsEnvList(WithInitVars(req.envVars, req.startCmd, req.readyCmd), asked)
    requires UserKeysCut(req.envVars)
    ensures ExtractUserEnv(ParseEnvList(asked)) == ExtractUserEnv(req.envVars)
  {
    var all := WithInitVars(req.envVars, req.startCmd, req.readyCmd);
    forall k | !HasPrefix(k, ENV_PREFIX)
      ensures (k in all <==> k in req.envVars) && (k in all ==> all[k] == req.envVars[k])
    {
      InitVarsAside(req, k);
    }
    UserPartFromList(all, asked);
  }

  lemma OverrideUserPart(theirs: map<string, string>, mine: map<string, string>, env: map<string, string>)
    requires ExtractUserEnv(mine) == ExtractUserEnv(env)
    ensures ExtractUserEnv(theirs + mine) == ExtractUserEnv(env) <==> AddsNoKey(theirs, env)
  {
    var got, user := ExtractUserEnv(theirs + mine), ExtractUserEnv(env);
    forall k | !HasPrefix(k, ENV_PREFIX)
      ensures (k in mine <==> k in env) && (k in mine ==> mine[k] == env[k])
    {
      assert k in ExtractUserEnv(mine) <==> k in user;
    }
    if AddsNoKey(theirs, env) { assert got == user; }
    forall k | k in theirs && !HasPrefix(k, ENV_PREFIX)
      ensures k in got
    {
    }
  }

  lemma ReadBackKeysAreCut(image: seq<string>, asked: seq<string>, env: map<string, string>)
    requires AllPairs(asked) && ExtractUserEnv(ParseEnvList(MergeEnv(asked, image))) == ExtractUserEnv(env)
    ensures UserKeysCut(env)
  {
    ParsedKeysHaveNoEquals(MergeEnv(asked, image));
    assert forall k | k in env && !HasPrefix(k, ENV_PREFIX) :: k in ExtractUserEnv(env);
  }

  // The user's environment through Docker: it comes back exactly if none of its
  // own keys holds an equals sign and the image adds no key of its own. A key
  // the image adds is taken for the user's.
  lemma DockerEnvRoundTrip(req: CreateRequest, image: seq<string>, asked: seq<string>)
    requires IsEnvList(WithInitVars(req.envVars, req.startCmd, req.readyCmd), asked)
    ensures ExtractUserEnv(ParseEnvList(MergeEnv(asked, image))) == ExtractUserEnv(req.envVars)
       <==> UserKeysCut(req.envVars) && AddsNoKey(ParseEnvList(image), req.envVars)
  {
    EnvListIsPairs(WithInitVars(req.envVars, req.startCmd, req.readyCmd), asked);
    if UserKeysCut(req.envVars) {
      MergeIsOverride(asked, image);
      AskedUserPart(req, asked);
      OverrideUserPart(ParseEnvList(image), ParseEnvList(asked), req.envVars);
    } else if ExtractUserEnv(ParseEnvList(MergeEnv(asked, image))) == ExtractUserEnv(req.envVars) {
      ReadBackKeysAreCut(image, asked, req.envVars);
    }
  }

  lemma DockerLimit(limit: int, unit: int)
    requires unit > 0
    ensures UnscaleLimit(ScaleLimit(limit, unit), unit) == limit <==> 0 <= limit && limit * unit <= INT64_MAX
  {
    if limit > 0 { LimitRoundTrip(limit, unit); }
  }

  // The same round trip through Docker, for any request and any image. Template
  // id, tokens, on-timeout and state always come back; each other field exactly
  // under the condition given for it. The start and ready commands ride along
  // in the environment and are filtered out.
  lemma DockerRestartRoundTrip(req: CreateRequest, image: DockerImage, asked: seq<string>, d: DockerContainer,
                               now: Time, defaultTimeout: Time)
    requires req.templateID != "" && req.onTimeout != ""
    requires DockerCreated(req, image, asked, d)
    ensures var s := Recover(DockerManaged(req.id, d), now, defaultTimeout);
      && s.profile.templateID == req.templateID && s.profile.containerID == d.id
      && s.profile.envdToken == req.envdToken && s.profile.trafficToken == req.trafficToken
      && s.profile.onTimeout == req.onTimeout && s.profile.createdAt == d.created
      && (s.profile.alias == req.alias <==> req.alias != "" || Lookup(image.labels, LABEL_TEMPLATE_ALIAS) == "")
      && (s.profile.metadata == req.metadata <==>
            forall k | k in image.labels && IsMetaKey(k) :: MetaName(k) in req.metadata)
      && (s.profile.envVars == ExtractUserEnv(req.envVars) <==>
            UserKeysCut(req.envVars) && AddsNoKey(ParseEnvList(image.env), req.envVars))
      && (s.profile.cpuCount == req.cpuCount <==> 0 <= req.cpuCount && req.cpuCount * 1_000_000_000 <= INT64_MAX)
      && (s.profile.memoryMB == req.memoryMB <==> 0 <= req.memoryMB && req.memoryMB * 1_048_576 <= INT64_MAX)
      && s.agentHost == (if d.status == CStopped then "" else d.host) && s.agentPort == 49983
      && (d.status == CRunning <==> s.state == Running)
      && (d.status == CPaused <==> IsFrozen(s))
      && (d.status == CStopped <==> IsStopped(s))
  {
    ImageLabels(req, image.labels);
    ImageMetadataShows(req, image.labels);
    DockerEnvRoundTrip(req, image.env, asked);
    DockerLimit(req.cpuCount, NANO);
    DockerLimit(req.memoryMB, MEBI);
  }

  lemma InitVarsAreFiltered(env: map<string, string>, startCmd: string, readyCmd: string)
    ensures ExtractUserEnv(WithInitVars(env, startCmd, readyCmd)) == ExtractUserEnv(env)
    ensures (forall k | k in env :: '=' !in k) ==> forall k | k in WithInitVars(env, startCmd, readyCmd) :: '=' !in k
  {
    InitVarNames();
  }

  // The commands are there under their names, over what the request sets.
  lemma InitVarsAreSet(env: map<string, string>, startCmd: string, readyCmd: string)
    ensures var all := WithInitVars(env, startCmd, readyCmd);
      && (startCmd != "" ==> Lookup(all, "EDVABE_START_CMD") == startCmd)
      && (readyCmd != "" ==> Lookup(all, "EDVABE_READY_CMD") == readyCmd)
      && (startCmd == "" && readyCmd == "" ==> all == env)
  {
    assert START_VAR[7] == 'S' && READY_VAR[7] == 'R';
  }

  lemma InitVarNames()
    ensures HasPrefix(START_VAR, ENV_PREFIX) && '=' !in START_VAR
    ensures HasPrefix(READY_VAR, ENV_PREFIX) && '=' !in READY_VAR
  {
  }

  // --------------------------------------------------------------- the loops

  method BuildSandboxLabels(req: CreateRequest) returns (labels: map<string, string>)
    ensures labels == SandboxLabels(req)
  {
    labels := map[LABEL_TEMPLATE_ID := req.templateID, LABEL_TOKEN_ENVD := req.envdToken,
                  LABEL_TOKEN_TRAFFIC := req.trafficToken];
    if req.alias != "" { labels := labels[LABEL_TEMPLATE_ALIAS := req.alias]; }
    if req.onTimeout != "" { labels := labels[LABEL_ON_TIMEOUT := req.onTimeout]; }
  }

  method ExtractMetadataFromLabels(labels: map<string, string>) returns (out: map<string, string>)
    ensures out == ExtractMetadata(labels)
  {
    MetaKeyInverse();
    out := map[];
    var todo := labels.Keys;
    while todo != {}
      invariant todo <= labels.Keys
      invariant forall m :: m in out <==> MetaKey(m) in labels && MetaKey(m) !in todo
      invariant forall m | m in out :: out[m] == labels[MetaKey(m)]
    {
      var k :| k in todo;
      todo := todo - {k};
      if IsMetaKey(k) { out := out[MetaName(k) := labels[k]]; }
    }
    forall m | MetaKey(m) in labels ensures m in ExtractMetadata(labels) {
      assert MetaName(MetaKey(m)) == m;
    }
  }

  method ExtractUserEnvVars(env: map<string, string>) returns (out: map<string, string>)
    ensures out == ExtractUserEnv(env)
  {
    out := map[];
    var todo := env.Keys;
    while todo != {}
      invariant todo <= env.Keys
      invariant out == map k | k in env && k !in todo && !HasPrefix(k, ENV_PREFIX) :: env[k]
    {
      var k :| k in todo;
      todo := todo - {k};
      if !HasPrefix(k, ENV_PREFIX) { out := out[k := env[k]]; }
    }
  }

  method EnvMapToSlice(env: map<string, string>) returns (list: seq<string>)
    ensures IsEnvList(env, list)
  {
    list := [];
    var todo := env.Keys;
    while todo != {}
      invariant todo <= env.Keys
      invariant IsEnvList(map k | k in env && k !in todo :: env[k], list)
    {
      var k :| k in todo;
      ghost var before := map j | j in env && j !in todo :: env[j];
      todo := todo - {k};
      ghost var after := map j | j in env && j !in todo :: env[j];
      assert after == before[k := env[k]];
      list := list + [k + "=" + env[k]];
      forall kv | kv in list ensures exists j | j in after :: kv == j + "=" + after[j] {
        if kv == k + "=" + env[k] { assert k in after; } else {
          var j :| j in before && kv == j + "=" + before[j];
          assert j in after;
        }
      }
    }
    assert env == map k | k in env && k !in todo :: env[k];
  }

  method ParseEnv(list: seq<string>) returns (out: map<string, string>)
    ensures out == ParseEnvList(list)
  {
    out := map[];
    for i := 0 to |list|
      invariant out == ParseEnvList(list[..i])
    {
      assert list[..i + 1][..i] == list[..i];
      var n := CutAt(list[i]);
      if n < |list[i]| { out := out[list[i][..n] := list[i][n + 1..]]; }
    }
    assert list[..|list|] == list;
  }

  method StampLabels(own: map<string, string>, metadata: map<string, string>) returns (labels: map<string, string>)
    ensures labels == StampMetadata(own, metadata)
  {
    labels := own;
    MetaKeyInverse();
    var todo := metadata.Keys;
    while todo != {}
      invariant todo <= metadata.Keys
      invariant forall k :: k in labels <==> k in own || (IsMetaKey(k) && MetaName(k) in metadata.Keys - todo)
      invariant forall k | k in labels ::
        labels[k] == if IsMetaKey(k) && MetaName(k) in metadata.Keys - todo then metadata[MetaName(k)] else own[k]
    {
      var k :| k in todo;
      todo := todo - {k};
      labels := labels[MetaKey(k) := metadata[k]];
    }
    StampMeaning(own, metadata);
  }

  lemma StampMeaning(labels: map<string, string>, metadata: map<string, string>)
    ensures forall k :: k in StampMetadata(labels, metadata) <==>
        k in labels || (IsMetaKey(k) && MetaName(k) in metadata)
    ensures forall m | m in metadata :: StampMetadata(labels, metadata)[MetaKey(m)] == metadata[m]
    ensures forall k | k in labels && !(IsMetaKey(k) &&
        MetaName(k) in metadata) :: StampMetadata(labels, metadata)[k] == labels[k]
  {
    MetaKeyInverse();
    forall k | IsMetaKey(k) && MetaName(k) in metadata ensures k in StampMetadata(labels, metadata) {
      assert k == MetaKey(MetaName(k));
    }
  }
}
