/**
  The world the connector acts on: the local filesystem, the Terraform binary it runs
  in a working directory, and json.Marshal. None of these is the connector's own code,
  so each is a small abstract effect:
  - the filesystem is a map from directory to the files in it;
  - file contents are kept symbolic (what was rendered or marshalled from what);
  - which external calls fail is fixed up front by a set of faults;
  - every directory created or removed and every Terraform command run is recorded, in
    order, in a trace, together with the files the command saw in its directory.
 */
module Host {
  import opened Wrappers
  import opened Port

  /** A file location: the directory and the base name that path.Join combines. */
  datatype Path = Path(dir: string, name: string)

  /** File contents. */
  datatype Blob =
    | Bytes(text: string)                         // contents written by someone else
    | Rendered(template: Blob, storageKey: string) // a text/template executed with storage_key
    | Json(vars: Properties)                      // json.Marshal of a property map

  /** A regular file: its contents and its permission bits. */
  datatype File = File(content: Blob, mode: int)

  /** Permission bits 0600 (octal): read and write for the owner only. */
  const OwnerReadWrite: int := 0x180

  /** Directory -> (base name -> file). */
  type FileSystem = map<string, map<string, File>>

  /** The external calls that can fail for reasons outside the model. */
  datatype Fault =
    | ParseFails              // template.ParseFiles rejects main.tf
    | ExecuteFails            // executing the main.tf template fails
    | MkdirFails              // os.MkdirTemp fails
    | NewTerraformFails       // tfexec.NewTerraform fails
    | WriteFails(name: string) // os.WriteFile of a file with this base name fails
    | MarshalFails            // json.Marshal fails
    | InitFails               // `terraform init` fails
    | ApplyFails              // `terraform apply` fails
    | ShowFails               // `terraform show` fails

  /** What the connector did that the outside world can observe. */
  datatype Event =
    | MadeDir(dir: string)
    | RanInit(dir: string, files: map<string, File>)
    | RanApply(dir: string, varFile: Path, files: map<string, File>)
    | RanShow(dir: string)
    | RemovedDir(dir: string)

  /** The part of the world the connector's decisions depend on. */
  datatype Env = Env(fs: FileSystem, faults: set<Fault>)

  /** A resource in Terraform's state (`tfjson.StateResource`). */
  datatype Resource = Resource(rtype: string, attributes: map<string, Value>)

  /**
    Terraform's state as `terraform show` reports it (`tfjson.State`). `rootResources` is
    None when the state carries no values (an empty state, as before the first apply or
    after a destroy, where `Values` is a nil pointer); otherwise it holds the resources of
    the root module.
   */
  datatype State = State(formatVersion: string, rootResources: Option<seq<Resource>>)

  /** os.ReadFile: the contents of the file at `p`, if there is one. */
  function ReadFile(fs: FileSystem, p: Path): (r: Option<Blob>)
    ensures r.Some? <==> p.dir in fs && p.name in fs[p.dir]
  {
    if p.dir in fs && p.name in fs[p.dir] then Some(fs[p.dir][p.name].content) else None
  }

  class Machine {
    var fs: FileSystem
    var trace: seq<Event>
    const faults: set<Fault>
    const state: State

    constructor (fs: FileSystem, faults: set<Fault>, state: State)
      ensures this.fs == fs && this.faults == faults && this.state == state && trace == []
    {
      this.fs := fs;
      this.faults := faults;
      this.state := state;
      trace := [];
    }

    /** The current filesystem and faults, as a value. */
    function Snapshot(): Env
      reads this
    {
      Env(fs, faults)
    }

    /** The files in `dir` (none when it does not exist). */
    function Listing(dir: string): map<string, File>
      reads this
    {
      if dir in fs then fs[dir] else map[]
    }

    /**
      os.MkdirTemp: creates the empty directory `dir`. The real call picks a random
      name that does not exist yet; here the caller supplies that name.
     */
    method MkdirTemp(dir: string) returns (ok: bool)
      requires dir !in fs
      modifies this
      ensures ok == (MkdirFails !in faults)
      ensures fs == if ok then old(fs)[dir := map[]] else old(fs)
      ensures trace == if ok then old(trace) + [MadeDir(dir)] else old(trace)
    {
      ok := MkdirFails !in faults;
      if ok {
        fs := fs[dir := map[]];
        trace := trace + [MadeDir(dir)];
      }
    }

    /** os.WriteFile: creates or replaces the file at `p`; fails when its directory is missing. */
    method WriteFile(p: Path, content: Blob, mode: int) returns (ok: bool)
      modifies this
      ensures ok == (p.dir in old(fs) && WriteFails(p.name) !in faults)
      ensures fs == if ok then old(fs)[p.dir := old(fs)[p.dir][p.name := File(content, mode)]] else old(fs)
      ensures trace == old(trace)
    {
      ok := p.dir in fs && WriteFails(p.name) !in faults;
      if ok {
        fs := fs[p.dir := fs[p.dir][p.name := File(content, mode)]];
      }
    }

    /** os.RemoveAll: removes `dir` and everything in it. */
    method RemoveAll(dir: string)
      modifies this
      ensures fs == old(fs) - {dir}
      ensures trace == old(trace) + [RemovedDir(dir)]
    {
      fs := fs - {dir};
      trace := trace + [RemovedDir(dir)];
    }

    /** json.Marshal of a property map. */
    method Marshal(vars: Properties) returns (r: Option<Blob>)
      ensures r == if MarshalFails in faults then None else Some(Json(vars))
    {
      r := if MarshalFails in faults then None else Some(Json(vars));
    }

    /** tfexec.NewTerraform: sets up a runner for the binary in `dir`. */
    method NewTerraform(dir: string) returns (ok: bool)
      ensures ok == (NewTerraformFails !in faults)
    {
      ok := NewTerraformFails !in faults;
    }

    /** `terraform init` in `dir`. */
    method Init(dir: string) returns (ok: bool)
      modifies this
      ensures fs == old(fs)
      ensures trace == old(trace) + [RanInit(dir, old(Listing(dir)))]
      ensures ok == (InitFails !in faults)
    {
      trace := trace + [RanInit(dir, Listing(dir))];
      ok := InitFails !in faults;
    }

    /** `terraform apply -var-file=<varFile>` in `dir`. */
    method Apply(dir: string, varFile: Path) returns (ok: bool)
      modifies this
      ensures fs == old(fs)
      ensures trace == old(trace) + [RanApply(dir, varFile, old(Listing(dir)))]
      ensures ok == (ApplyFails !in faults)
    {
      trace := trace + [RanApply(dir, varFile, Listing(dir))];
      ok := ApplyFails !in faults;
    }

    /** `terraform show` in `dir`: the state Terraform holds. */
    method Show(dir: string) returns (r: Option<State>)
      modifies this
      ensures fs == old(fs)
      ensures trace == old(trace) + [RanShow(dir)]
      ensures r == if ShowFails in faults then None else Some(state)
    {
      trace := trace + [RanShow(dir)];
      r := if ShowFails in faults then None else Some(state);
    }
  }
}
