# llama-manager control core, modelled in Dafny

llama-manager is a small HTTP control plane that supervises one
`llama-server` worker process chosen from a catalog of named runs. This
project models its core and proves properties of the model:

- **Run catalog and command materializer** (`config.dfy`, module
  `Configuration`): the `Run`/`RunParams`/`Config` records, the token list
  `BuildCommand` assembles (`Parts`), `join` (`Join`), the command line
  (`BuildCommand`) and the first-match lookup `GetRun`. The token list is
  characterised three ways: its length and its seven required tokens
  (`Parts`), a parser that reads every field back from it (`ParseParts`,
  which accepts a flag only with a non-empty value and a tensor split only
  as a non-empty value between double quotes, and reads the segments in their fixed order), and
  the same command line written as one string concatenation
  (`CommandLine`), which `BuildCommand` is proved to equal.
- **Process manager** (`processmanager.dfy`, module `ProcessManagement`):
  a class with the single `current` slot, plus two ghost fields: `Live`
  (commands started and not successfully killed) and `Log` (every kill and
  launch attempt, in order). `StartProcess` and `StopCurrent` are proved
  equal to the pure transitions `StartStep` and `StopStep`, and the
  lemmas are about those transitions. The outcomes of `Process.Kill` and
  `Cmd.Start` are parameters. A command is a class instance because the
  Go code compares `*exec.Cmd` pointers.
- **Request handlers** (`server.dfy`, module `HttpServer`): `handleRun`,
  `handleStop`, `Shutdown` and `handleShutdown` as replies (status code and
  body) together with their effect on the process manager, and the
  double stop done by the interrupt handler in `main.go`.

Each manager method holds the mutex for its whole body, so each is one
atomic step of the model. `http.Error` writes its message followed by a
newline, so the modelled error bodies end in `"\n"`.

Behaviour of the code worth noting:
- A failed launch after a successful kill leaves the killed command in the slot. It does not empty the slot.
- Runs have only structured parameters. The catalog tests build runs with a `Cmd` field that `Run` does not have, so there is no opaque-command variant.
- `StopCurrent` discards a failed kill and still empties the slot. If that command was still alive, it leaks (`StopNoLeak`).

## Model

| member | source | states |
|---|---|---|
| `Configuration.Parts` | config/config.go:31-61 | the token list has 7 + (1 if flash attention) + 2 × (number of set optional strings) tokens and starts with the launcher, `-m`, model path, `-ngl`, layers, `-c`, context size, even when those values are empty |
| `Configuration.Optional` | config/config.go:37-60 | the optional part has one token for flash attention and two per set string option |
| `Configuration.ValueSegments` | config/config.go:40-60 | the seven flag-and-value segments contribute two tokens per set field and nothing per unset one |
| `Configuration.PartsRoundTrip` | config/config.go:31-60 | a parser that reads the optional flags only in the fixed order, only with non-empty values, and the tensor split only as a non-empty value between double quotes, gives back exactly the parameters from the token list; so every set option is emitted in its own place with its value (the tensor split in double quotes, the others verbatim), and no unset option leaves a flag behind |
| `Configuration.ValueSegmentsRoundTrip` | config/config.go:40-60 | the seven flag-and-value segments read back, in order, to the seven field values (tensor split unquoted) |
| `Configuration.QuotedValueShape` | config/config.go:40-42 | a set tensor split is emitted as a token of more than two characters that starts and ends with a double quote and unquotes to the value; an unset one as nothing |
| `Configuration.PartsInjective` | config/config.go:31-60 | different parameters never give the same token list |
| `Configuration.FlashAttnPosition` | config/config.go:37-39 | `--flash-attn` is the eighth token iff flash attention is on |
| `Configuration.ExampleParts` | config/config.go:31-60 | model m.gguf, 65 layers, context 13824, flash attention and temperature 0.6 give the required tokens, then `--flash-attn`, then `--temp 0.6`, and nothing else |
| `Configuration.RequiredOnly` | config/config.go:33-36 | with only the required fields set, exactly the seven required tokens are emitted |
| `Configuration.Join` | config/config.go:64-66 | joining with single spaces: the empty list gives the empty string, otherwise the length is the sum of token lengths plus one separator between neighbours |
| `Configuration.JoinAppend` | config/config.go:64-66 | joining a list extended by more tokens is the join of the first part followed by a space and each further token |
| `Configuration.JoinRequired` | config/config.go:33-36 | the joined required part is `<launcher> -m <model> -ngl <layers> -c <context>` |
| `Configuration.SpacedValueSegments` | config/config.go:40-60 | the seven flag-and-value segments append ` <flag> <value>` for each set option, in the fixed order |
| `Configuration.SpacedOptional` | config/config.go:37-60 | the optional tokens append ` --flash-attn` and ` <flag> <value>` for each set option, in the fixed order |
| `Configuration.BuildCommandText` | config/config.go:31-66 | the joined token list equals the string written as one concatenation of the required flags and each set optional flag |
| `Configuration.BuildCommand` | config/config.go:31-62 | the command line is `<launcher> -m <model> -ngl <layers> -c <context>` followed by ` --flash-attn` when on and ` <flag> <value>` for each set option in the order tensor-split (value in double quotes), prio, temp, min-p, top-p, top-k, host |
| `Configuration.GetRun` | config/config.go:86-93 | the result is the position of the first run whose name equals the requested one exactly, and there is no result iff no run has that name |
| `ProcessManagement.ProcessManager.constructor` | processmanager/processmanager.go:14-16 | a new manager holds no command, has started nothing and has logged nothing |
| `ProcessManagement.ProcessManager.StartProcess` | processmanager/processmanager.go:18-34 | the new slot, live set, log and returned error are those of `StartStep` on the old state |
| `ProcessManagement.ProcessManager.StopCurrent` | processmanager/processmanager.go:36-44 | the new slot, live set and log are those of `StopStep` on the old state |
| `ProcessManagement.StartFromEmpty` | processmanager/processmanager.go:22-33 | with an empty slot no kill is attempted; a successful launch returns no error and the slot holds exactly the new command |
| `ProcessManagement.KillBeforeLaunch` | processmanager/processmanager.go:22-26 | with a held command, its kill is the first thing logged; if it fails, that error is returned, nothing is launched and the slot and live set are unchanged; if it works, the launch comes right after |
| `ProcessManagement.LaunchFailureKeepsSlot` | processmanager/processmanager.go:28-30 | a failed launch returns its error and the slot keeps its previous value, possibly the command just killed |
| `ProcessManagement.ReplaceHoldsSecond` | processmanager/processmanager.go:22-32 | after starting A and then B successfully, the slot holds B, A is killed, and the log ends with A's kill followed by B's launch |
| `ProcessManagement.StartKeepsNoLeak` | processmanager/processmanager.go:22-33 | `StartProcess` keeps the no-leak invariant (every started-and-not-killed command is the one in the slot) whatever the kill and launch outcomes |
| `ProcessManagement.StopEmptiesSlot` | processmanager/processmanager.go:36-44 | `StopCurrent` always leaves the slot empty, and with an empty slot it changes nothing |
| `ProcessManagement.StopTwiceIsStopOnce` | processmanager/processmanager.go:40-43 | two consecutive stops have the effect of one |
| `ProcessManagement.StopNoLeak` | processmanager/processmanager.go:40-43 | `StopCurrent` keeps the no-leak invariant iff the slot was empty, the kill worked, or the held command was not alive; a discarded failed kill leaks the command |
| `ProcessManagement.NoLeakAlongRun` | processmanager/processmanager.go:18-44 | along any sequence of starts and stops whose stop kills succeed, the invariant holds and at most one started-and-not-killed command exists |
| `ProcessManagement.AtMostOneLive` | processmanager/processmanager.go:9-12 | under the no-leak invariant at most one command is alive, since the slot holds at most one |
| `HttpServer.Server.HandleRun` | server/server.go:53-70 | an unknown name gets 404 `Run not found` and the process manager is untouched; for a known name the manager makes one `StartProcess` step with a newly created bash command whose arguments are `-c` and that run's command line, and the reply reports its result |
| `HttpServer.RunStepCases` | server/server.go:61-69 | a failed kill or launch gives 500 with body `Error starting run: <error>` and leaves the slot as it was; otherwise the reply is 200 `Started run: <name>` and the slot holds `bash -c` with the run's independently written command line; the no-leak invariant is kept |
| `HttpServer.Server.HandleStop` | server/server.go:72-76 | always 200 `Stopped current run`, the manager takes one `StopCurrent` step and the slot is empty |
| `HttpServer.Server.Shutdown` | server/server.go:45-47 | the manager takes one `StopCurrent` step and the slot is empty |
| `HttpServer.Server.HandleShutdown` | server/server.go:119-139 | status 200 with the fixed `Shutdown command issued…` message iff the power-off command starts; otherwise 500 with the body `Error sending shutdown command: ` followed by the launch error and a newline |
| `HttpServer.OnInterrupt` | main.go:31-36 | stopping the current run and then calling `Shutdown`, back to back with no request in between, has the effect of a single stop and leaves the slot empty |

## Left out

- `config.Load` (config/config.go:72-84) reads a file and decodes YAML with a library that is not part of this model. The catalog is given as a `Config` value.
- `GetRun` returns the position of the run rather than a pointer into the slice. The catalog is an immutable value, so the fact that `GetRun` does not change `c.Runs` holds by construction and is not stated separately.
- `BuildCommand` builds its list by successive conditional appends to a local slice. It is modelled as a concatenation of fixed segments, which is what those appends produce.
- `handleIndex` (template rendering), `handleConfig` (reads the configuration file) and `handleCurrentModel` (proxies an HTTP request to the worker) are I/O passthroughs with no control logic.
- `Server.Start` and `NewServer` only register routes, parse the page template and listen on the network.
- The mutex is not modelled. Each method holds it for its whole body, so each method is one atomic step, and concurrent requests are sequences of such steps.
- The behaviour of the operating system is not modelled: whether `Process.Kill` and `Cmd.Start` succeed is an input. The same holds for the `systemctl poweroff` launch in `handleShutdown`.
- Response headers are not modelled. Neither are the content-type headers `http.Error` sets, or the `PATH` lookup `exec.Command` does for `bash`.
- The query-string parsing in `handleRun` is not modelled; the run name is an input.
- `main.go` flag parsing, the signal channel and `os.Exit` are left out. Only its double stop is modelled (`OnInterrupt`).
- `OnInterrupt`: the two stops at main.go:34-35 each take the lock separately. The model runs them back to back; a run request served between them, whose new process the second stop would kill, is not modelled.
- Errors from `Process.Kill`, `Cmd.Start` and the power-off launch are assumed to carry a non-empty message (the `Reason` type in base.dfy). Go does not guarantee this. The length bound on the 500 body in `HandleShutdown` and the 500 bodies in `RunStepCases` rely on it.
