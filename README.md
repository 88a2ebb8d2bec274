# Port Terraform connector — a Dafny model

The connector is an HTTP service. Port sends it action-run messages; for each one it runs
Terraform to create, update or destroy the infrastructure of a Port entity, then reports the
run's status back to Port. This project models the core of that service:

- `actionHandler` (main.go). It routes a message by its trigger: `CREATE` and `DAY-2` go to
  Apply, `DELETE` goes to Destroy. It then sends Port one Success or Failure report.
- Apply and Destroy (terraform/terraform.go). Each one:
  - renders the bootstrap `main.tf` for the entity's state key;
  - for Apply, reads the blueprint's template `<blueprint>.tf`;
  - writes the files into a fresh temporary working directory;
  - runs `terraform init`;
  - writes `port.tfvars.json`, which holds the variables merged with `lo.Assign`;
  - runs `terraform apply`;
  - removes the directory on every return after creating it.
- The helpers they use: `getStateKey`, `genUUID`, `loadMainTF`, `loadTemplateTF`,
  `writeTerraformFiles` and `createVarsFile`. Also `ExtractEntityID`, which reads the entity's
  ID from Terraform's state.

The outside world is the class `Host.Machine` (host.dfy):

- a filesystem, as a map from directory to the files in it;
- a fixed set of faults, which says which external calls fail;
- a trace of observable events: directories created and removed, and Terraform commands run,
  each with the files it saw.

Choices made by the runtime become inputs, in `Terraform.Choices`: the UUID drawn, the name of
the temporary directory, and Go's random map-iteration order. `Terraform.Apply`,
`Terraform.Destroy` and `Server.ActionHandler` are imperative methods on that machine. Each is
proved equal to a ghost function of the world before it: `ApplyRun`, `DestroyRun` or `Handle`.
The lemmas state what those functions guarantee. The modules follow the program:

- `Port`: the message shapes and the status client;
- `Lo`: `lo.Assign`;
- `Host`: the operating system and Terraform;
- `Terraform`: terraform/terraform.go;
- `Server`: main.go.

port/action.go declares the context's entity as a struct holding only an ID. terraform.go
compares it with `""` and reads properties from the payload's entity. The model follows
terraform.go: the context's entity is a string, empty for an entity that does not exist yet,
and the payload's entity carries the entity's properties.

`ExtractEntityID` follows terraform.go:211-217:

- an empty state has no values (a nil `Values` pointer), and dereferencing it panics; the
  model returns the error `NilValuesPanic`;
- when the root module holds exactly one `port-labs_entity` resource, it returns that
  resource's `id`;
- otherwise, it returns the state's format version.

## Model

| member | source | states |
|---|---|---|
| Lo.AssignKeys | terraform/terraform.go:98-102 | a key is in the merge of `lo.Assign` iff some argument map holds it |
| Lo.AssignLastWins | terraform/terraform.go:98-102 | a key in the merge has the value of the last argument holding it |
| Terraform.StripHyphens | terraform/terraform.go:37 | removing hyphens leaves no hyphen and never lengthens the string |
| Terraform.StripUuid | terraform/terraform.go:35-38 | stripping the hyphens of a canonical UUID leaves exactly its 32 hex digits, in order |
| Terraform.GenUuid | terraform/terraform.go:35-38 | genUUID(len) is the first len hex digits of the UUID drawn, with no hyphen |
| Terraform.StateKey | terraform/terraform.go:54-62 | an existing entity's key is its identifier; a new one gets "e_" followed by the UUID's first 16 hex digits, with no hyphen |
| Terraform.StateKeyStable | terraform/terraform.go:54-62 | for an existing entity every operation uses the same key, whatever UUID it draws |
| Terraform.ReservedVars | terraform/terraform.go:98-102 | the connector sets exactly entity_identifier, blueprint and run_id |
| Terraform.ApplyVarsPrecedence | terraform/terraform.go:98-102 | Apply's variables hold every key of entity properties, payload properties and reserved variables; reserved values win over payload values, which win over entity values |
| Terraform.DestroyVarsPrecedence | terraform/terraform.go:189-193 | Destroy's variables hold exactly the payload keys and the reserved ones; no entity property enters; reserved values win |
| Terraform.TemplateNameInjective | terraform/terraform.go:150-153 | different blueprints read different template files |
| Terraform.LoadMainTF | terraform/terraform.go:136-148 | main.tf renders iff it exists, parses and executes; the result is rendered with the given storage key |
| Terraform.LoadTemplateTF | terraform/terraform.go:150-158 | the blueprint's template is returned verbatim iff `<templates>/<blueprint>.tf` exists; otherwise the error names the file |
| Terraform.FirstFailedWrite | terraform/terraform.go:126-134 | the position where writing stops: every earlier write succeeds and the write there fails |
| Terraform.WriteTerraformFiles | terraform/terraform.go:126-134 | writes the files in map order at mode 0600 until the first failing write; the folder then holds exactly the files written before it, and the error names the failing file |
| Terraform.CreateVarsFile | terraform/terraform.go:114-124 | writes the marshalled variables to `<workDir>/port.tfvars.json` at mode 0600 and returns that path; on a marshal or write failure returns nothing and changes nothing |
| Terraform.ApplyOrder | terraform/terraform.go:87-90 | either visiting order lists Apply's two files, each once |
| Terraform.WrittenApplyFiles | terraform/terraform.go:87-92 | whichever order the map range takes, the same main.tf and template.tf result |
| Terraform.RunInWorkDir | terraform/terraform.go:83-111 | the steps inside the working directory run in order and the first failure ends them; only that directory changes |
| Terraform.Apply | terraform/terraform.go:66-112 | Apply's error and trace are those of ApplyRun, and the filesystem ends as it began (the deferred removal) |
| Terraform.Destroy | terraform/terraform.go:160-203 | Destroy's error and trace are those of DestroyRun, and the filesystem ends as it began |
| Terraform.ApplyCleansUp | terraform/terraform.go:77-81 | a run leaves no trace, or creates the directory first and removes it last; it leaves no trace exactly when main.tf, the template or MkdirTemp fails |
| Terraform.ApplyStepOrder | terraform/terraform.go:83-110 | init runs only after the runner is set up and both files are written; apply runs only after init succeeded and the vars file was written |
| Terraform.ApplyWorkDirContents | terraform/terraform.go:87-107 | init sees exactly main.tf rendered for the state key plus the verbatim template; apply also sees port.tfvars.json holding Apply's variables and gets it as the var file; all files are mode 0600 |
| Terraform.ApplySucceeds | terraform/terraform.go:66-112 | Apply succeeds iff both files exist and no external call fails; it then ran init and apply once each |
| Terraform.ApplyMissingTemplate | terraform/terraform.go:73-76 | a missing template stops Apply before any directory is created |
| Terraform.DestroyRejectsEmptyEntity | terraform/terraform.go:161-164 | Destroy without an entity fails at once and does nothing |
| Terraform.DestroyEffects | terraform/terraform.go:160-203 | Destroy cleans up like Apply and keeps the same step order; Terraform sees only main.tf, rendered for the entity's key, plus Destroy's variables |
| Terraform.LifecycleSharesState | terraform/terraform.go:57-62 | for an existing entity, Apply and Destroy give Terraform the same rendered main.tf (the same state object) and the same entity_identifier |
| Terraform.EntityResources | terraform/terraform.go:211-213 | keeps only port-labs_entity resources, and is empty iff the state holds none |
| Terraform.SingleEntity | terraform/terraform.go:211-216 | the filter keeps exactly one resource iff exactly one entity resource exists, and then keeps exactly that one |
| Terraform.EntityIdOf | terraform/terraform.go:211-217 | an empty state (no values) is the nil-dereference panic; with exactly one entity resource in the root module, returns its string `id` (an error stands for the panic on a non-string id); otherwise returns the format version |
| Terraform.ExtractEntityID | terraform/terraform.go:206-218 | runs `terraform show`; fails when it fails, otherwise returns the entity ID of the state shown |
| Server.ActionHandler | main.go:112-135 | the handler's error, trace and reports are those of Handle; the filesystem is unchanged |
| Server.ReportsOnce | main.go:113-134 | a body that does not decode, or an unknown trigger, gets an error with nothing run or reported; CREATE and DAY-2 run Apply, DELETE runs Destroy, and the handler's trace is that operation's; the operation's own error is returned whatever the report does, and only after a successful operation does a rejected report fail the handler; exactly one report for the run's ID, Failure iff the operation failed |
| Server.HandlerSucceeds | main.go:126-134 | the handler succeeds iff the body decodes, the trigger is known, the operation succeeds and Port accepts the Success report |
| Server.Day2IsCreate | main.go:118-120 | a DAY-2 action is handled exactly like a CREATE action with the same message |

## Left out

- Install (terraform.go:40-52): downloading Terraform 1.2.9 is I/O. The model assumes the binary is present.
- verifyHmac, main.go's init, gin routing, the HTTP status codes and the logging: transport and logging code outside the core.
- port/client.go is not part of this model. `PatchActionRun` is a record of the reports sent plus a flag saying whether the API rejects them.
- The text/template engine and tfexec internals: rendering is symbolic (`Rendered(template, key)`), and Terraform commands are trace events whose success is decided by the fault set.
- Whether json.Marshal fails is decided by a fault, not derived from the values.
- os.RemoveAll always succeeds, since its error is ignored by the deferred call.
- path.Join is not modelled: paths are (directory, name) pairs, so a blueprint containing '/' is not resolved into another directory.
- Terraform.GenUuid: requires len <= 32, where Go would panic on a longer slice; the source only asks for 16.
- Terraform.EntityIdOf: Go's panics, on a missing or non-string `id` and on an empty state's nil values, are modelled as the errors IdAssertionPanic and NilValuesPanic.
- Error messages are constructors of `Errors.Error`, not formatted strings.
- The ActionBody fields the core never reads are not modelled.
- Concurrency between requests is not modelled: each request runs alone on the machine.
- os.MkdirTemp's random directory name is an input that must not already exist.
