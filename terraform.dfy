/**
  The Terraform orchestration of terraform/terraform.go: deriving the state key of an
  entity, building the variables passed to Terraform, and the Apply and Destroy
  operations, which render the Terraform files into a fresh working directory, run
  `terraform init` and `terraform apply` there, and remove the directory again.
 */
module Terraform {
  import opened Wrappers
  import opened Port
  import opened Errors
  import opened Host
  import Lo

  // ---------------------------------------------------------------------------------
  // State key: getStateKey and genUUID
  // ---------------------------------------------------------------------------------

  predicate IsHexDigit(c: char) {
    '0' <= c <= '9' || 'a' <= c <= 'f'
  }

  /**
    The text form of a UUID as uuid.UUID.String() writes it: 36 characters, hyphens at
    positions 8, 13, 18 and 23, lower-case hexadecimal digits everywhere else.
   */
  predicate IsUuid(u: string) {
    |u| == 36 &&
    forall i | 0 <= i < 36 ::
      if i == 8 || i == 13 || i == 18 || i == 23 then u[i] == '-' else IsHexDigit(u[i])
  }

  /** strings.Replace(s, "-", "", -1): `s` with every hyphen removed. */
  function StripHyphens(s: string): (r: string)
    ensures '-' !in r
    ensures |r| <= |s|
  {
    if s == [] then []
    else (if s[0] == '-' then [] else [s[0]]) + StripHyphens(s[1..])
  }

  lemma {:induction false} StripHyphensAppend(a: string, b: string)
    ensures StripHyphens(a + b) == StripHyphens(a) + StripHyphens(b)
  {
    if a == [] {
      assert a + b == b;
    } else {
      assert (a + b)[1..] == a[1..] + b;
      StripHyphensAppend(a[1..], b);
    }
  }

  lemma {:induction false} StripHyphensNoop(s: string)
    requires '-' !in s
    ensures StripHyphens(s) == s
  {
    if s != [] {
      StripHyphensNoop(s[1..]);
    }
  }

  /** The 32 hexadecimal digits of a UUID, in order. */
  function UuidDigits(u: string): (digits: string)
    requires IsUuid(u)
    ensures |digits| == 32
    ensures forall i | 0 <= i < 32 :: IsHexDigit(digits[i])
  {
    var digits := u[..8] + (u[9..13] + (u[14..18] + (u[19..23] + u[24..])));
    assert forall i | 0 <= i < 32 :: digits[i] == u[if i < 8 then i else if i < 12 then i + 1
                                                   else if i < 16 then i + 2 else if i < 20 then i + 3 else i + 4];
    digits
  }

  /** Removing the hyphens from u[i..] keeps the hyphen-free run u[i..j] and drops the hyphen at j. */
  lemma StripHyphensAt(u: string, i: nat, j: nat)
    requires i <= j < |u| && u[j] == '-' && '-' !in u[i..j]
    ensures StripHyphens(u[i..]) == u[i..j] + StripHyphens(u[j + 1..])
  {
    assert u[i..] == u[i..j] + "-" + u[j + 1..];
    StripHyphensAppend(u[i..j] + "-", u[j + 1..]);
    StripHyphensAppend(u[i..j], "-");
    StripHyphensNoop(u[i..j]);
    assert StripHyphens("-") == "";
  }

  /** A run of a UUID between two hyphen positions holds no hyphen. */
  lemma UuidRunHasNoHyphen(u: string, i: nat, j: nat)
    requires IsUuid(u) && i <= j <= 36
    requires j <= 8 || (9 <= i && j <= 13) || (14 <= i && j <= 18) || (19 <= i && j <= 23) || 24 <= i
    ensures '-' !in u[i..j]
  {
  }

  /** Removing the hyphens of a UUID leaves exactly its 32 digits. */
  lemma StripUuid(u: string)
    requires IsUuid(u)
    ensures StripHyphens(u) == UuidDigits(u)
  {
    UuidRunHasNoHyphen(u, 0, 8);
    UuidRunHasNoHyphen(u, 9, 13);
    UuidRunHasNoHyphen(u, 14, 18);
    UuidRunHasNoHyphen(u, 19, 23);
    UuidRunHasNoHyphen(u, 24, 36);
    assert u[24..36] == u[24..];
    StripHyphensNoop(u[24..]);
    StripHyphensAt(u, 19, 23);
    StripHyphensAt(u, 14, 18);
    StripHyphensAt(u, 9, 13);
    StripHyphensAt(u, 0, 8);
    assert u[0..] == u;
    assert u[0..8] == u[..8];
  }

  /**
    genUUID(len): the first `len` characters of a fresh UUID with its hyphens removed.
    The UUID that uuid.New() would draw is the parameter `u`.
   */
  function GenUuid(u: string, len: nat): (id: string)
    requires IsUuid(u) && len <= 32
    ensures id == UuidDigits(u)[..len]
    ensures '-' !in id
  {
    StripUuid(u);
    StripHyphens(u)[..len]
  }

  /** The marker that starts every state key the connector makes up itself. */
  const FreshKeyPrefix: string := "e_"

  /** "e_" followed by 16 hexadecimal digits. */
  predicate IsFreshKey(key: string) {
    |key| == 18 && key[..2] == FreshKeyPrefix && forall i | 2 <= i < 18 :: IsHexDigit(key[i])
  }

  /**
    getStateKey: the name of the entity's state object in the Terraform backend. An
    entity that exists keeps its identifier as key; for a new one a key is made from
    the UUID `u`.
   */
  function StateKey(body: ActionBody, u: string): (key: string)
    requires IsUuid(u)
    ensures body.context.entity != "" ==> key == body.context.entity
    ensures body.context.entity == "" ==> IsFreshKey(key) && '-' !in key
    ensures body.context.entity == "" ==> key[2..] == UuidDigits(u)[..16]
  {
    if body.context.entity != "" then body.context.entity
    else FreshKeyPrefix + GenUuid(u, 16)
  }

  /**
    For an entity that exists, every operation uses the same key whatever UUID it
    draws, and Destroy, which reads the entity directly, uses that key too.
   */
  lemma StateKeyStable(body1: ActionBody, body2: ActionBody, u1: string, u2: string)
    requires IsUuid(u1) && IsUuid(u2)
    requires body1.context.entity == body2.context.entity != ""
    ensures StateKey(body1, u1) == StateKey(body2, u2) == body2.context.entity
  {
  }

  // ---------------------------------------------------------------------------------
  // Terraform variables
  // ---------------------------------------------------------------------------------

  const EntityIdentifierVar: string := "entity_identifier"
  const BlueprintVar: string := "blueprint"
  const RunIdVar: string := "run_id"

  /** The variables the connector itself sets: the state key, the blueprint and the run. */
  function ReservedVars(body: ActionBody, key: string): (vars: Properties)
    ensures vars.Keys == {EntityIdentifierVar, BlueprintVar, RunIdVar}
  {
    map[EntityIdentifierVar := Str(key),
        BlueprintVar := Str(body.context.blueprint),
        RunIdVar := Str(body.context.runId)]
  }

  /** The variables of Apply: entity properties, then payload properties, then the reserved ones. */
  function ApplyVars(body: ActionBody, key: string): Properties {
    Lo.Assign([map[], body.payload.entity.properties, body.payload.properties, ReservedVars(body, key)])
  }

  /** The variables of Destroy: as for Apply, without the entity's properties. */
  function DestroyVars(body: ActionBody, key: string): Properties {
    Lo.Assign([map[], body.payload.properties, ReservedVars(body, key)])
  }

  /**
    The variables of Apply hold every key of the three sources; the reserved keys have
    the connector's values, and any other key the payload's value if the payload has
    it, else the entity's.
   */
  lemma ApplyVarsPrecedence(body: ActionBody, key: string)
    ensures var vars, e, p := ApplyVars(body, key), body.payload.entity.properties, body.payload.properties;
      && vars.Keys == e.Keys + p.Keys + {EntityIdentifierVar, BlueprintVar, RunIdVar}
      && vars[EntityIdentifierVar] == Str(key)
      && vars[BlueprintVar] == Str(body.context.blueprint)
      && vars[RunIdVar] == Str(body.context.runId)
      && (forall k | k in p && k !in ReservedVars(body, key) :: vars[k] == p[k])
      && (forall k | k in e && k !in p && k !in ReservedVars(body, key) :: vars[k] == e[k])
  {
    var e, p, r := body.payload.entity.properties, body.payload.properties, ReservedVars(body, key);
    var maps := [map[], e, p, r];
    var vars := Lo.Assign(maps);
    forall k
      ensures k in vars <==> k in e || k in p || k in r
    {
      Lo.AssignKeys(maps, k);
      if k in vars {
        var i :| 0 <= i < |maps| && k in maps[i];
      }
      if k in e { assert k in maps[1]; }
      if k in p { assert k in maps[2]; }
      if k in r { assert k in maps[3]; }
    }
    forall k | k in r
      ensures vars[k] == r[k]
    {
      Lo.AssignLastWins(maps, 3, k);
    }
    forall k | k in p && k !in r
      ensures vars[k] == p[k]
    {
      Lo.AssignLastWins(maps, 2, k);
    }
    forall k | k in e && k !in p && k !in r
      ensures vars[k] == e[k]
    {
      Lo.AssignLastWins(maps, 1, k);
    }
  }

  /**
    The variables of Destroy hold the payload's keys and the reserved ones, never an
    entity property the payload does not repeat; the reserved keys have the
    connector's values.
   */
  lemma DestroyVarsPrecedence(body: ActionBody, key: string)
    ensures var vars, p := DestroyVars(body, key), body.payload.properties;
      && vars.Keys == p.Keys + {EntityIdentifierVar, BlueprintVar, RunIdVar}
      && vars[EntityIdentifierVar] == Str(key)
      && vars[BlueprintVar] == Str(body.context.blueprint)
      && vars[RunIdVar] == Str(body.context.runId)
      && (forall k | k in p && k !in ReservedVars(body, key) :: vars[k] == p[k])
  {
    var p, r := body.payload.properties, ReservedVars(body, key);
    var maps := [map[], p, r];
    var vars := Lo.Assign(maps);
    forall k
      ensures k in vars <==> k in p || k in r
    {
      Lo.AssignKeys(maps, k);
      if k in vars {
        var i :| 0 <= i < |maps| && k in maps[i];
      }
      if k in p { assert k in maps[1]; }
      if k in r { assert k in maps[2]; }
    }
    forall k | k in r
      ensures vars[k] == r[k]
    {
      Lo.AssignLastWins(maps, 2, k);
    }
    forall k | k in p && k !in r
      ensures vars[k] == p[k]
    {
      Lo.AssignLastWins(maps, 1, k);
    }
  }

  // ---------------------------------------------------------------------------------
  // Terraform files
  // ---------------------------------------------------------------------------------

  const MainTFName: string := "main.tf"
  const TemplateTFName: string := "template.tf"
  const VarsFileName: string := "port.tfvars.json"

  /** main.tf in the process's working directory: the template of the backend configuration. */
  const BootstrapTemplate: Path := Path(".", MainTFName)

  /** The template file of a blueprint: the blueprint's identifier with the ".tf" extension. */
  function TemplateName(blueprint: string): string {
    blueprint + ".tf"
  }

  /** Different blueprints read different template files. */
  lemma TemplateNameInjective(b1: string, b2: string)
    requires TemplateName(b1) == TemplateName(b2)
    ensures b1 == b2
  {
    assert b1 == TemplateName(b1)[..|b1|];
    assert b2 == TemplateName(b2)[..|b2|];
  }

  /** createVarsFile: where the variables file goes. */
  function VarsFilePath(workDir: string): Path {
    Path(workDir, VarsFileName)
  }

  /**
    loadMainTF: main.tf rendered with `storage_key` set to `key`. Fails when main.tf is
    missing or does not parse, and when executing it fails.
   */
  function LoadMainTF(env: Env, key: string): (r: Result<Blob, Error>)
    ensures r.Ok? <==> ReadFile(env.fs, BootstrapTemplate).Some?
                       && ParseFails !in env.faults && ExecuteFails !in env.faults
    ensures r.Ok? ==> r.value.Rendered? && r.value.storageKey == key
  {
    match ReadFile(env.fs, BootstrapTemplate)
    case None => Err(MainTFParse)
    case Some(template) =>
      if ParseFails in env.faults then Err(MainTFParse)
      else if ExecuteFails in env.faults then Err(MainTFExecute)
      else Ok(Rendered(template, key))
  }

  /** loadTemplateTF: the blueprint's template file, read verbatim from the templates folder. */
  function LoadTemplateTF(env: Env, body: ActionBody, templateFolder: string): (r: Result<Blob, Error>)
    ensures var p := Path(templateFolder, TemplateName(body.context.blueprint));
      && (r.Ok? <==> ReadFile(env.fs, p).Some?)
      && (r.Ok? ==> r.value == ReadFile(env.fs, p).value)
      && (r.Err? ==> r.error == TemplateRead(TemplateName(body.context.blueprint)))
  {
    match ReadFile(env.fs, Path(templateFolder, TemplateName(body.context.blueprint)))
    case None => Err(TemplateRead(TemplateName(body.context.blueprint)))
    case Some(contents) => Ok(contents)
  }

  /**
    `order` lists every name of `files` once: the order in which a `range` over the Go
    map visits them, which Go leaves unspecified.
   */
  predicate IsOrdering(order: seq<string>, files: map<string, Blob>) {
    && (forall i | 0 <= i < |order| :: order[i] in files)
    && (forall n | n in files :: n in order)
    && (forall i, j | 0 <= i < j < |order| :: order[i] != order[j])
  }

  /** The position in `order` of the first file whose write fails; |order| if none fails. */
  function FirstFailedWrite(order: seq<string>, faults: set<Fault>): (stop: nat)
    ensures stop <= |order|
    ensures forall i | 0 <= i < stop :: WriteFails(order[i]) !in faults
    ensures stop < |order| ==> WriteFails(order[stop]) in faults
  {
    if order == [] then 0
    else if WriteFails(order[0]) in faults then 0
    else 1 + FirstFailedWrite(order[1..], faults)
  }

  /** The files named in `names`, as writeTerraformFiles writes them (mode 0600), in that order. */
  function Written(files: map<string, Blob>, names: seq<string>): (r: map<string, File>)
    requires forall i | 0 <= i < |names| :: names[i] in files
  {
    if names == [] then map[]
    else
      var last := names[|names| - 1];
      Written(files, names[..|names| - 1])[last := File(files[last], OwnerReadWrite)]
  }

  /**
    writeTerraformFiles: writes each file into `folder`, in map order, and stops at the
    first write that fails.
   */
  method WriteTerraformFiles(m: Machine, folder: string, files: map<string, Blob>, order: seq<string>)
    returns (err: Option<Error>)
    requires folder in m.fs && IsOrdering(order, files)
    modifies m
    ensures var stop := FirstFailedWrite(order, m.faults);
      && err == (if stop < |order| then Some(WriteFailed(order[stop])) else None)
      && m.fs == old(m.fs)[folder := old(m.fs[folder]) + Written(files, order[..stop])]
    ensures m.trace == old(m.trace)
  {
    var i := 0;
    assert Written(files, order[..0]) == map[];
    assert old(m.fs[folder]) + map[] == old(m.fs[folder]);
    while i < |order|
      invariant i <= |order| && folder in m.fs
      invariant forall j | 0 <= j < i :: WriteFails(order[j]) !in m.faults
      invariant m.fs == old(m.fs)[folder := old(m.fs[folder]) + Written(files, order[..i])]
      invariant m.trace == old(m.trace)
    {
      var name := order[i];
      ghost var before := m.fs[folder];
      var ok := m.WriteFile(Path(folder, name), files[name], OwnerReadWrite);
      if !ok {
        FirstFailedWriteAt(order, m.faults, i);
        return Some(WriteFailed(name));
      }
      WrittenStep(files, order, i, old(m.fs[folder]));
      i := i + 1;
    }
    FirstFailedWriteAt(order, m.faults, i);
    assert order[..i] == order;
    err := None;
  }

  /** No write before `i` fails and the one at `i` does (or there is none): `i` is where writing stops. */
  lemma FirstFailedWriteAt(order: seq<string>, faults: set<Fault>, i: nat)
    requires i <= |order|
    requires forall j | 0 <= j < i :: WriteFails(order[j]) !in faults
    requires i < |order| ==> WriteFails(order[i]) in faults
    ensures FirstFailedWrite(order, faults) == i
  {
  }

  /** Writing one more file of `order` onto what is already in the folder. */
  lemma WrittenStep(files: map<string, Blob>, order: seq<string>, i: nat, existing: map<string, File>)
    requires i < |order| && forall j | 0 <= j < |order| :: order[j] in files
    ensures (existing + Written(files, order[..i]))[order[i] := File(files[order[i]], OwnerReadWrite)]
         == existing + Written(files, order[..i + 1])
  {
    assert order[..i + 1][..i] == order[..i];
  }

  /**
    createVarsFile: marshals `vars` to JSON and writes it to port.tfvars.json in
    `workDir` with mode 0600; returns where it went.
   */
  method CreateVarsFile(m: Machine, workDir: string, vars: Properties) returns (varsFile: Option<Path>)
    modifies m
    ensures varsFile == if MarshalFails in m.faults || workDir !in old(m.fs)
                            || WriteFails(VarsFileName) in m.faults
                        then None else Some(VarsFilePath(workDir))
    ensures m.fs == if varsFile.None? then old(m.fs)
                    else old(m.fs)[workDir := old(m.fs[workDir])[VarsFileName := File(Json(vars), OwnerReadWrite)]]
    ensures m.trace == old(m.trace)
  {
    var b := m.Marshal(vars);
    if b.None? {
      return None;
    }
    var ok := m.WriteFile(VarsFilePath(workDir), b.value, OwnerReadWrite);
    if !ok {
      return None;
    }
    return Some(VarsFilePath(workDir));
  }

  // ---------------------------------------------------------------------------------
  // Apply and Destroy
  // ---------------------------------------------------------------------------------

  /** The outcome of an operation: its error (None for nil) and what it did, in order. */
  datatype Run = Run(err: Option<Error>, events: seq<Event>)

  /**
    What the Go runtime and the operating system choose for one operation: the UUID
    uuid.New() draws, the directory os.MkdirTemp creates, and whether the range over
    Apply's two files visits main.tf first.
   */
  datatype Choices = Choices(uuid: string, workDir: string, mainFirst: bool)

  /**
    The steps Apply and Destroy take inside the working directory `dir`, once it is
    created: set up the runner, write the Terraform files, `terraform init`, write the
    variables file, `terraform apply`. The first failure ends the sequence.
   */
  ghost function WorkDirRun(faults: set<Fault>, dir: string, files: map<string, Blob>,
                            order: seq<string>, vars: Properties): Run
    requires IsOrdering(order, files)
  {
    var stop := FirstFailedWrite(order, faults);
    var tfFiles := Written(files, order);
    if NewTerraformFails in faults then Run(Some(TerraformInstance), [])
    else if stop < |order| then Run(Some(WriteFailed(order[stop])), [])
    else if InitFails in faults then Run(Some(InitFailed), [RanInit(dir, tfFiles)])
    else if MarshalFails in faults || WriteFails(VarsFileName) in faults then
      Run(Some(VarsFileFailed), [RanInit(dir, tfFiles)])
    else
      var withVars := tfFiles[VarsFileName := File(Json(vars), OwnerReadWrite)];
      Run(if ApplyFails in faults then Some(ApplyFailed) else None,
          [RanInit(dir, tfFiles), RanApply(dir, VarsFilePath(dir), withVars)])
  }

  /** The Terraform files of Apply. */
  function ApplyFiles(mainTF: Blob, templateTF: Blob): map<string, Blob> {
    map[MainTFName := mainTF, TemplateTFName := templateTF]
  }

  /** The two orders in which the range over Apply's files can visit them. */
  function ApplyOrder(mainFirst: bool): (order: seq<string>)
    ensures forall mainTF, templateTF :: IsOrdering(order, ApplyFiles(mainTF, templateTF))
  {
    if mainFirst then [MainTFName, TemplateTFName] else [TemplateTFName, MainTFName]
  }

  /** Apply, as a function of the world before it and the choices made during it. */
  ghost function ApplyRun(env: Env, body: ActionBody, templateFolder: string, ch: Choices): Run
    requires IsUuid(ch.uuid)
  {
    var key := StateKey(body, ch.uuid);
    match LoadMainTF(env, key)
    case Err(e) => Run(Some(e), [])
    case Ok(mainTF) =>
      match LoadTemplateTF(env, body, templateFolder)
      case Err(e) => Run(Some(e), [])
      case Ok(templateTF) =>
        if MkdirFails in env.faults then Run(Some(TempDirFailed), [])
        else
          var r := WorkDirRun(env.faults, ch.workDir, ApplyFiles(mainTF, templateTF),
                              ApplyOrder(ch.mainFirst), ApplyVars(body, key));
          Run(r.err, [MadeDir(ch.workDir)] + r.events + [RemovedDir(ch.workDir)])
  }

  /** Destroy, as a function of the world before it and the choices made during it. */
  ghost function DestroyRun(env: Env, body: ActionBody, ch: Choices): Run {
    var key := body.context.entity;
    if key == "" then Run(Some(EmptyEntity), [])
    else
      match LoadMainTF(env, key)
      case Err(e) => Run(Some(e), [])
      case Ok(mainTF) =>
        if MkdirFails in env.faults then Run(Some(TempDirFailed), [])
        else
          var r := WorkDirRun(env.faults, ch.workDir, map[MainTFName := mainTF], [MainTFName],
                              DestroyVars(body, key));
          Run(r.err, [MadeDir(ch.workDir)] + r.events + [RemovedDir(ch.workDir)])
  }

  /**
    The part of Apply and Destroy that runs in the working directory, before the
    deferred removal of the directory.
   */
  method RunInWorkDir(m: Machine, dir: string, files: map<string, Blob>, order: seq<string>,
                      vars: Properties) returns (err: Option<Error>)
    requires dir in m.fs && m.fs[dir] == map[] && IsOrdering(order, files)
    modifies m
    ensures var r := WorkDirRun(m.faults, dir, files, order, vars);
      err == r.err && m.trace == old(m.trace) + r.events
    ensures dir in m.fs && m.fs == old(m.fs)[dir := m.fs[dir]]
  {
    var ok := m.NewTerraform(dir);
    if !ok {
      return Some(TerraformInstance);
    }
    err := WriteTerraformFiles(m, dir, files, order);
    if err.Some? {
      return;
    }
    assert order[..|order|] == order;
    assert map[] + Written(files, order) == Written(files, order);
    assert m.fs[dir] == Written(files, order);
    ok := m.Init(dir);
    if !ok {
      return Some(InitFailed);
    }
    var varsFile := CreateVarsFile(m, dir, vars);
    if varsFile.None? {
      return Some(VarsFileFailed);
    }
    ok := m.Apply(dir, varsFile.value);
    if !ok {
      return Some(ApplyFailed);
    }
    return None;
  }

  /**
    Apply: creates or updates the entity's infrastructure. Renders main.tf for the
    entity's state key, reads the blueprint's template, and runs Terraform on both in
    a fresh working directory that it removes again on every return after creating it.
   */
  method Apply(m: Machine, body: ActionBody, templateFolder: string, ch: Choices) returns (err: Option<Error>)
    requires IsUuid(ch.uuid) && ch.workDir !in m.fs
    modifies m
    ensures var r := ApplyRun(old(m.Snapshot()), body, templateFolder, ch);
      err == r.err && m.trace == old(m.trace) + r.events
    ensures m.fs == old(m.fs)
  {
    var key := StateKey(body, ch.uuid);
    var mainTF := LoadMainTF(m.Snapshot(), key);
    if mainTF.Err? {
      return Some(mainTF.error);
    }
    var templateTF := LoadTemplateTF(m.Snapshot(), body, templateFolder);
    if templateTF.Err? {
      return Some(templateTF.error);
    }
    var made := m.MkdirTemp(ch.workDir);
    if !made {
      return Some(TempDirFailed);
    }
    err := RunInWorkDir(m, ch.workDir, ApplyFiles(mainTF.value, templateTF.value),
                        ApplyOrder(ch.mainFirst), ApplyVars(body, key));
    m.RemoveAll(ch.workDir);
    assert m.fs == old(m.fs);
  }

  /**
    Destroy: removes the entity's infrastructure by applying a configuration that
    declares no resources (main.tf only) against the entity's state.
   */
  method Destroy(m: Machine, body: ActionBody, ch: Choices) returns (err: Option<Error>)
    requires ch.workDir !in m.fs
    modifies m
    ensures var r := DestroyRun(old(m.Snapshot()), body, ch);
      err == r.err && m.trace == old(m.trace) + r.events
    ensures m.fs == old(m.fs)
  {
    var key := body.context.entity;
    if key == "" {
      return Some(EmptyEntity);
    }
    var mainTF := LoadMainTF(m.Snapshot(), key);
    if mainTF.Err? {
      return Some(mainTF.error);
    }
    var made := m.MkdirTemp(ch.workDir);
    if !made {
      return Some(TempDirFailed);
    }
    err := RunInWorkDir(m, ch.workDir, map[MainTFName := mainTF.value], [MainTFName],
                        DestroyVars(body, key));
    m.RemoveAll(ch.workDir);
    assert m.fs == old(m.fs);
  }

  // ---------------------------------------------------------------------------------
  // What Apply and Destroy do
  // ---------------------------------------------------------------------------------

  /** main.tf rendered for `key` and the blueprint's template, as Apply writes them (0600). */
  function ApplyTerraformFiles(bootstrap: Blob, key: string, templateTF: Blob): map<string, File> {
    map[MainTFName := File(Rendered(bootstrap, key), OwnerReadWrite),
        TemplateTFName := File(templateTF, OwnerReadWrite)]
  }

  /** main.tf rendered for `key`, the only file Destroy writes before the variables (0600). */
  function DestroyTerraformFiles(bootstrap: Blob, key: string): map<string, File> {
    map[MainTFName := File(Rendered(bootstrap, key), OwnerReadWrite)]
  }

  /** `files` with the variables file added (0600). */
  function WithVars(files: map<string, File>, vars: Properties): map<string, File> {
    files[VarsFileName := File(Json(vars), OwnerReadWrite)]
  }

  /** Whichever order the range over Apply's files takes, the same two files result. */
  lemma WrittenApplyFiles(mainTF: Blob, templateTF: Blob, mainFirst: bool)
    ensures Written(ApplyFiles(mainTF, templateTF), ApplyOrder(mainFirst))
         == map[MainTFName := File(mainTF, OwnerReadWrite), TemplateTFName := File(templateTF, OwnerReadWrite)]
  {
    var files := ApplyFiles(mainTF, templateTF);
    var order := ApplyOrder(mainFirst);
    assert order[..1][..0] == [];
    assert order[..1] == [order[0]];
    assert Written(files, order[..1]) == map[order[0] := File(files[order[0]], OwnerReadWrite)];
  }

  /** The files Terraform sees in the working directory are the ones this model says. */
  lemma WorkDirFiles(faults: set<Fault>, dir: string, files: map<string, Blob>, order: seq<string>,
                     vars: Properties, tfFiles: map<string, File>)
    requires IsOrdering(order, files) && Written(files, order) == tfFiles
    ensures var ev := WorkDirRun(faults, dir, files, order, vars).events;
      && (forall e | e in ev && e.RanInit? :: e == RanInit(dir, tfFiles))
      && (forall e | e in ev && e.RanApply? :: e == RanApply(dir, VarsFilePath(dir), WithVars(tfFiles, vars)))
  {
  }

  /**
    Apply removes its working directory on every return after creating it: a run
    either leaves no trace, or begins by creating the directory, ends by removing it
    and in between only runs Terraform in it. The runs that leave no trace are exactly
    those that fail on main.tf, on the blueprint's template or on creating the directory.
   */
  lemma ApplyCleansUp(env: Env, body: ActionBody, templateFolder: string, ch: Choices)
    requires IsUuid(ch.uuid)
    ensures var r, d := ApplyRun(env, body, templateFolder, ch), ch.workDir;
      && (r.events != [] ==>
            && |r.events| >= 2
            && r.events[0] == MadeDir(d)
            && r.events[|r.events| - 1] == RemovedDir(d)
            && forall i | 0 < i < |r.events| - 1 :: r.events[i].RanInit? || r.events[i].RanApply?)
      && (r.events == [] <==>
            r.err in {Some(MainTFParse), Some(MainTFExecute),
                      Some(TemplateRead(TemplateName(body.context.blueprint))), Some(TempDirFailed)})
  {
  }

  /**
    Apply's steps run in order and the first failure stops it: `terraform init` runs
    only once the runner is set up and both Terraform files are written, and
    `terraform apply` runs only after `terraform init` succeeded and the variables
    file was written.
   */
  lemma ApplyStepOrder(env: Env, body: ActionBody, templateFolder: string, ch: Choices)
    requires IsUuid(ch.uuid)
    ensures var r := ApplyRun(env, body, templateFolder, ch);
      && (forall i | 0 <= i < |r.events| && r.events[i].RanInit? ::
            && i == 1
            && NewTerraformFails !in env.faults
            && WriteFails(MainTFName) !in env.faults && WriteFails(TemplateTFName) !in env.faults)
      && (forall i | 0 <= i < |r.events| && r.events[i].RanApply? ::
            && i == 2 && r.events[1].RanInit?
            && InitFails !in env.faults
            && MarshalFails !in env.faults && WriteFails(VarsFileName) !in env.faults)
  {
  }

  /**
    What Terraform sees: at `terraform init`, exactly main.tf rendered for the state
    key and the blueprint's template, read verbatim from the templates folder; at
    `terraform apply`, those two and the variables file port.tfvars.json, which holds
    the variables of Apply and is the file passed to Terraform. All three have mode 0600.
   */
  lemma ApplyWorkDirContents(env: Env, body: ActionBody, templateFolder: string, ch: Choices)
    requires IsUuid(ch.uuid)
    ensures var r, d, key := ApplyRun(env, body, templateFolder, ch), ch.workDir, StateKey(body, ch.uuid);
      var bootstrap := ReadFile(env.fs, BootstrapTemplate);
      var template := ReadFile(env.fs, Path(templateFolder, TemplateName(body.context.blueprint)));
      && (forall e | e in r.events && e.RanInit? ::
            && bootstrap.Some? && template.Some?
            && e == RanInit(d, ApplyTerraformFiles(bootstrap.value, key, template.value)))
      && (forall e | e in r.events && e.RanApply? ::
            && bootstrap.Some? && template.Some?
            && e == RanApply(d, VarsFilePath(d),
                             WithVars(ApplyTerraformFiles(bootstrap.value, key, template.value),
                                      ApplyVars(body, key))))
  {
    var key := StateKey(body, ch.uuid);
    match LoadMainTF(env, key)
    case Err(_) =>
    case Ok(mainTF) =>
      match LoadTemplateTF(env, body, templateFolder)
      case Err(_) =>
      case Ok(templateTF) =>
        WrittenApplyFiles(mainTF, templateTF, ch.mainFirst);
        WorkDirFiles(env.faults, ch.workDir, ApplyFiles(mainTF, templateTF), ApplyOrder(ch.mainFirst),
                     ApplyVars(body, key), ApplyTerraformFiles(ReadFile(env.fs, BootstrapTemplate).value, key, templateTF));
  }

  /**
    Apply succeeds iff main.tf and the blueprint's template exist and none of the
    external calls it makes fails; it then ran `terraform init` and `terraform apply`
    once each.
   */
  lemma ApplySucceeds(env: Env, body: ActionBody, templateFolder: string, ch: Choices)
    requires IsUuid(ch.uuid)
    ensures var r, f := ApplyRun(env, body, templateFolder, ch), env.faults;
      && (r.err.None? <==>
            && ReadFile(env.fs, BootstrapTemplate).Some?
            && ReadFile(env.fs, Path(templateFolder, TemplateName(body.context.blueprint))).Some?
            && ParseFails !in f && ExecuteFails !in f && MkdirFails !in f && NewTerraformFails !in f
            && WriteFails(MainTFName) !in f && WriteFails(TemplateTFName) !in f
            && InitFails !in f && MarshalFails !in f && WriteFails(VarsFileName) !in f && ApplyFails !in f)
      && (r.err.None? ==> |r.events| == 4 && r.events[1].RanInit? && r.events[2].RanApply?)
  {
  }

  /** A missing template file stops Apply before it creates a working directory. */
  lemma ApplyMissingTemplate(env: Env, body: ActionBody, templateFolder: string, ch: Choices)
    requires IsUuid(ch.uuid)
    requires ReadFile(env.fs, Path(templateFolder, TemplateName(body.context.blueprint))).None?
    ensures var r := ApplyRun(env, body, templateFolder, ch);
      && r.events == []
      && r.err in {Some(MainTFParse), Some(MainTFExecute), Some(TemplateRead(TemplateName(body.context.blueprint)))}
  {
  }

  /** Destroy without an entity fails at once: nothing is rendered, created or run. */
  lemma DestroyRejectsEmptyEntity(env: Env, body: ActionBody, ch: Choices)
    requires body.context.entity == ""
    ensures DestroyRun(env, body, ch) == Run(Some(EmptyEntity), [])
  {
  }

  /**
    Destroy cleans up like Apply, runs its steps in the same order, and shows
    Terraform main.tf alone, rendered for the entity's own key, so that the
    configuration declares no resource; its variables leave out the entity's properties.
   */
  lemma DestroyEffects(env: Env, body: ActionBody, ch: Choices)
    ensures var r, d, key := DestroyRun(env, body, ch), ch.workDir, body.context.entity;
      var bootstrap := ReadFile(env.fs, BootstrapTemplate);
      && (r.events != [] ==>
            && |r.events| >= 2
            && r.events[0] == MadeDir(d)
            && r.events[|r.events| - 1] == RemovedDir(d)
            && forall i | 0 < i < |r.events| - 1 :: r.events[i].RanInit? || r.events[i].RanApply?)
      && (r.events == [] <==>
            r.err in {Some(EmptyEntity), Some(MainTFParse), Some(MainTFExecute), Some(TempDirFailed)})
      && (forall i | 0 <= i < |r.events| && r.events[i].RanApply? ::
            i == 2 && r.events[1].RanInit? && InitFails !in env.faults
            && MarshalFails !in env.faults && WriteFails(VarsFileName) !in env.faults)
      && (forall e | e in r.events && e.RanInit? ::
            bootstrap.Some? && e == RanInit(d, DestroyTerraformFiles(bootstrap.value, key)))
      && (forall e | e in r.events && e.RanApply? ::
            && bootstrap.Some?
            && e == RanApply(d, VarsFilePath(d),
                             WithVars(DestroyTerraformFiles(bootstrap.value, key), DestroyVars(body, key))))
  {
    var key := body.context.entity;
    if key != "" {
      match LoadMainTF(env, key)
      case Err(_) =>
      case Ok(mainTF) =>
        var files, order := map[MainTFName := mainTF], [MainTFName];
        assert order[..0] == [];
        WorkDirFiles(env.faults, ch.workDir, files, order, DestroyVars(body, key),
                     DestroyTerraformFiles(ReadFile(env.fs, BootstrapTemplate).value, key));
    }
  }

  /**
    An entity keeps one Terraform state through its life: when it exists, Apply and
    Destroy (under the same main.tf) show Terraform the same rendered main.tf, so the
    same backend object, and the same entity_identifier.
   */
  lemma LifecycleSharesState(env1: Env, env2: Env, body1: ActionBody, body2: ActionBody,
                             templateFolder: string, ch1: Choices, ch2: Choices)
    requires IsUuid(ch1.uuid)
    requires body1.context.entity == body2.context.entity != ""
    requires ReadFile(env1.fs, BootstrapTemplate) == ReadFile(env2.fs, BootstrapTemplate)
    ensures forall e1, e2 | e1 in ApplyRun(env1, body1, templateFolder, ch1).events && e1.RanApply?
                         && e2 in DestroyRun(env2, body2, ch2).events && e2.RanApply? ::
      && MainTFName in e1.files && MainTFName in e2.files
      && e1.files[MainTFName] == e2.files[MainTFName]
      && e1.files[MainTFName].content.Rendered?
      && e1.files[MainTFName].content.storageKey == body1.context.entity
      && VarsFileName in e1.files && VarsFileName in e2.files
      && e1.files[VarsFileName].content.Json? && e2.files[VarsFileName].content.Json?
      && EntityIdentifierVar in e1.files[VarsFileName].content.vars
      && EntityIdentifierVar in e2.files[VarsFileName].content.vars
      && e1.files[VarsFileName].content.vars[EntityIdentifierVar]
         == e2.files[VarsFileName].content.vars[EntityIdentifierVar]
         == Str(body1.context.entity)
  {
    var key := body1.context.entity;
    ApplyWorkDirContents(env1, body1, templateFolder, ch1);
    DestroyEffects(env2, body2, ch2);
    ApplyVarsPrecedence(body1, key);
    DestroyVarsPrecedence(body2, key);
  }

  // ---------------------------------------------------------------------------------
  // ExtractEntityID
  // ---------------------------------------------------------------------------------

  /** The resource type of a Port entity in Terraform's state. */
  const EntityResourceType: string := "port-labs_entity"

  /** The resources of type port-labs_entity, in order (lo.Filter). */
  function EntityResources(rs: seq<Resource>): (es: seq<Resource>)
    ensures forall i | 0 <= i < |es| :: es[i].rtype == EntityResourceType
    ensures es == [] <==> forall i | 0 <= i < |rs| :: rs[i].rtype != EntityResourceType
  {
    if rs == [] then []
    else (if rs[0].rtype == EntityResourceType then [rs[0]] else []) + EntityResources(rs[1..])
  }

  /** rs[i] is the one and only resource of type port-labs_entity in `rs`. */
  predicate OnlyEntityAt(rs: seq<Resource>, i: int) {
    && 0 <= i < |rs|
    && rs[i].rtype == EntityResourceType
    && forall j | 0 <= j < |rs| && j != i :: rs[j].rtype != EntityResourceType
  }

  /** The filter keeps exactly one resource iff the state holds exactly one entity. */
  lemma {:induction false} SingleEntity(rs: seq<Resource>)
    ensures |EntityResources(rs)| == 1 <==> exists i :: OnlyEntityAt(rs, i)
    ensures forall i | OnlyEntityAt(rs, i) :: EntityResources(rs) == [rs[i]]
  {
    if rs != [] {
      var tail := rs[1..];
      SingleEntity(tail);
      if rs[0].rtype == EntityResourceType {
        if |EntityResources(rs)| == 1 {
          assert EntityResources(tail) == [];
          assert OnlyEntityAt(rs, 0) by {
            forall j | 0 < j < |rs| ensures rs[j].rtype != EntityResourceType {
              assert rs[j] == tail[j - 1];
            }
          }
        }
        forall i | OnlyEntityAt(rs, i) ensures EntityResources(rs) == [rs[i]] {
          assert i == 0;
          forall j | 0 <= j < |tail| ensures tail[j].rtype != EntityResourceType {
            assert tail[j] == rs[j + 1];
          }
        }
      } else {
        forall i | OnlyEntityAt(rs, i) ensures OnlyEntityAt(tail, i - 1) {
          forall j | 0 <= j < |tail| && j != i - 1 ensures tail[j].rtype != EntityResourceType {
            assert tail[j] == rs[j + 1];
          }
        }
        if |EntityResources(rs)| == 1 {
          var k :| OnlyEntityAt(tail, k);
          assert OnlyEntityAt(rs, k + 1) by {
            forall j | 0 <= j < |rs| && j != k + 1 ensures rs[j].rtype != EntityResourceType {
              if j > 0 { assert rs[j] == tail[j - 1]; }
            }
          }
        }
      }
    }
  }

  /** The `id` attribute of a resource; Go's type assertion panics when it is not a string. */
  function IdOf(res: Resource): Result<string, Error> {
    if "id" in res.attributes && res.attributes["id"].Str? then Ok(res.attributes["id"].s)
    else Err(IdAssertionPanic)
  }

  /**
    The entity ID recorded in a Terraform state: the `id` of its port-labs_entity
    resource when it has exactly one, and the state's format version otherwise. An
    empty state, which has no values to look into, is the nil-pointer panic.
   */
  function EntityIdOf(state: State): (r: Result<string, Error>)
    ensures state.rootResources.None? ==> r == Err(NilValuesPanic)
    ensures state.rootResources.Some? ==>
      var rs := state.rootResources.value;
      && (forall i | OnlyEntityAt(rs, i) :: r == IdOf(rs[i]))
      && ((forall i :: !OnlyEntityAt(rs, i)) ==> r == Ok(state.formatVersion))
  {
    match state.rootResources
    case None => Err(NilValuesPanic)
    case Some(rs) =>
      var entities := EntityResources(rs);
      SingleEntity(rs);
      if |entities| == 1 then IdOf(entities[0]) else Ok(state.formatVersion)
  }

  /** ExtractEntityID: `terraform show` in `dir`, then the entity ID of the state it shows. */
  method ExtractEntityID(m: Machine, dir: string) returns (id: Result<string, Error>)
    modifies m
    ensures m.fs == old(m.fs) && m.trace == old(m.trace) + [RanShow(dir)]
    ensures id == if ShowFails in m.faults then Err(ShowFailed) else EntityIdOf(m.state)
  {
    var state := m.Show(dir);
    if state.None? {
      return Err(ShowFailed);
    }
    return EntityIdOf(state.value);
  }
}
