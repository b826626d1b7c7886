# SafeExecute execution engine in Dafny

This project models `execute_python_code` of the `safeexecute` package. The
function runs a Python snippet inside a Docker container and returns the
container's output. It does four things in order:

1. It collects the snippet's install directives with
   `re.findall(r"pip install (.*)", code)`. Each entry is the rest of a line
   after its leftmost `pip install `. Matches do not overlap, and `.` stops
   at a newline.
2. If the snippet contains "```python", it keeps
   `code.split("```python")[1].split("```")[0]`. Otherwise it keeps the
   snippet unchanged. The kept text is written to `temp.py` in the workspace.
   The workspace is the directory given, or `join(getcwd(), "WORKSPACE")`.
3. Inside one `try` block, it prepares the image. It then starts one
   `pip install <pkg>` container per requirement, in order. An exception in
   any install returns `"Error: " + message` at once.
4. It starts a single `python /workspace/temp.py` container, waits for it,
   reads its logs, removes it, deletes `temp.py` and returns the logs. Any
   exception in the `try` block returns `"Error: " + message`. Every
   container gets the same mount: the absolute workspace path, bound
   read-write at `/workspace`, which is also its working directory.

The model has four modules:

- `Text`: Python's `p in s`, `s.find(p)`, `s.split(sep)` and `sep.join(parts)`
  over `string`.
- `Requirements`: the `findall` extraction, written as a direct scan.
- `Fences`: the fence stripping, written as the literal double split.
- `Engine`: the engine itself, in two forms.
  - `Execute` is a pure reference function. It builds the *plan* (every call
    the `try` block makes when nothing raises) and a `Perform` of that plan
    against an oracle.
  - `ExecutePythonCode` is a method that mirrors the source's control flow:
    the staging, the install loop with early returns, then the run phase. It
    records each call as it makes it, and is proved to return exactly
    `Execute`'s report.

Docker and the host are parameters:

- `Docker.answer(k)` says whether the k-th call inside the `try` block
  returned or raised, and with which message.
- `Docker.logs` is the decoded log text.
- `Host.cwd` and `Host.absPath` stand for `os.getcwd()` and
  `os.path.abspath`.

Two behaviours a sandbox might be expected to have are not what this code
does; the model follows the code:

- A failed install is fatal. The code returns `"Error: ..."` from inside the
  install loop, and nothing later runs.
- `temp.py` is deleted only on success. On an error path no `DeleteFile` call
  returned: the deletion is only ever the last call of the plan, so it appears
  in an error report only as the call that raised (`ErrorKeepsTempFile`).

Fence stripping follows the double split exactly. "The text after the first
fence up to the next ```" is what it keeps, exactly when no second "```python"
starts one or two characters into that "```" (`StagedUpToBackticks`). When one
does, the first split already cuts at that second fence, so the kept text runs
on to it: the text before the "```" plus one or two of its backticks
(`StagedOverlap`). Right after the first fence, that is just those one or two
backticks (`OverlappingFence`).

## Model

| member | source | states |
|---|---|---|
| Text.Contains | safeexecute/__init__.py:29 | `p in s`: the empty pattern is in every text, and a pattern longer than the text is in none |
| Text.Find | safeexecute/__init__.py:30 | the index `str.split` cuts at: an occurrence that fits inside the text, or none |
| Text.FindCorrect | safeexecute/__init__.py:29 | `find` reports an occurrence with none before it, and reports none exactly when the pattern does not occur (`"```python" in code` is false) |
| Text.Split | safeexecute/__init__.py:30 | `s.split(sep)` for a non-empty separator always has at least one piece |
| Text.SplitSingle | safeexecute/__init__.py:30 | a split has one piece, the whole text, exactly when the separator does not occur |
| Text.SplitPiecesFree | safeexecute/__init__.py:30 | no piece of `s.split(sep)` contains `sep` |
| Text.JoinSplit | safeexecute/__init__.py:30 | joining the pieces of `s.split(sep)` with `sep` gives back `s` |
| Requirements.LineEnd | safeexecute/__init__.py:27 | the group `(.*)` runs over no newline and stops at the first newline or at the end of the text |
| Requirements.FindAll | safeexecute/__init__.py:27 | no extracted entry contains a newline |
| Requirements.ScanLine | safeexecute/__init__.py:27 | scanning one whole line adds exactly that line's requirement, then scanning goes on from the newline |
| Requirements.FindAllByLine | safeexecute/__init__.py:27 | the extracted list is, in line order, the text after the leftmost `pip install ` of each line of `code.split("\n")` that has one, one entry per such line |
| Requirements.NoDirectiveNoRequirements | safeexecute/__init__.py:27 | a snippet without `pip install ` yields an empty list |
| Requirements.EmptyRequirement | safeexecute/__init__.py:27 | a directive with nothing after it on its line, followed by a newline or the end of the text, yields an empty entry ahead of the requirements of the rest |
| Fences.StripFence | safeexecute/__init__.py:29-30 | the staged text is never longer than the snippet |
| Fences.AfterFence | safeexecute/__init__.py:30 | the text after the first opening fence is a proper suffix of the snippet |
| Fences.NoFenceUnchanged | safeexecute/__init__.py:29 | without "```python" the staged text is the snippet unchanged |
| Fences.StagedFromAfter | safeexecute/__init__.py:30 | the second piece of the first split is the first piece of splitting the text after the first fence |
| Fences.FencedStaged | safeexecute/__init__.py:30 | with a fence, the staged text starts right after the first "```python", contains no "```", and ends where a "```" begins or at the end |
| Fences.StagedIsSubstring | safeexecute/__init__.py:30 | the staged text is the part of the snippet starting at index `i + 9`, where `i` is the index of the first "```python" |
| Fences.UpToBackticks | safeexecute/__init__.py:30 | the text up to its first "```" (or all of it) is a prefix of it and contains no "```" |
| Fences.CutUpToBackticks | safeexecute/__init__.py:30 | splitting at the first "```python" and then at the first "```" keeps exactly the text up to the first "```" if and only if no "```python" starts one or two characters into that "```" |
| Fences.StagedUpToBackticks | safeexecute/__init__.py:29-30 | with an opening fence, the staged text is the text after it up to the next "```" (or to the end if none follows) if and only if no second "```python" overlaps that "```" |
| Fences.CutOverlap | safeexecute/__init__.py:30 | when a "```python" starts one or two characters into the first "```", splitting at the first "```python" and then at "```" keeps everything before that "```python" |
| Fences.StagedOverlap | safeexecute/__init__.py:29-30 | with an opening fence, when a second "```python" overlaps the first "```" after it, the staged text is all of the text after the first fence up to that second fence |
| Fences.OverlappingFence | safeexecute/__init__.py:30 | when the second "```python" starts one or two characters after the first fence ends, overlapping a "```", the staged text is exactly those one or two backticks, not empty |
| Fences.StripFenceIdempotent | safeexecute/__init__.py:29-30 | stripping the staged text again leaves it unchanged |
| Engine.PathJoin | safeexecute/__init__.py:23 | `os.path.join(a, b)` ends with `b`, and starts with `a` unless `b` is absolute |
| Engine.WorkspaceDir | safeexecute/__init__.py:22-23 | the workspace is the directory given, or else a path that starts with the current directory and ends with `WORKSPACE` |
| Engine.WorkspaceVolume | safeexecute/__init__.py:45-50 | the mount of every container: the given host path, bound at `/workspace`, mode `rw` |
| Engine.InstallContainer | safeexecute/__init__.py:42-55 | an install container runs `"pip install "` followed by exactly the package, on the engine's image, with the given mount, working directory `/workspace`, output captured, detached |
| Engine.RunContainer | safeexecute/__init__.py:60-73 | the run container runs `python /workspace/temp.py`, which is no install command, on the engine's image, with the given mount, working directory `/workspace`, output captured, detached |
| Engine.Installs | safeexecute/__init__.py:39-55 | one container start per requirement, each with the one given mount |
| Engine.Plan | safeexecute/__init__.py:36-77 | the calls of the `try` block when nothing raises: one per requirement and six more, starting with the image preparation and ending with the deletion of temp.py |
| Engine.PlanOf | safeexecute/__init__.py:22-77 | the containers a call's plan starts are `"pip install " + pkg` for each requirement of the unstripped snippet, in order, then `python /workspace/temp.py` |
| Engine.Execute | safeexecute/__init__.py:21-82 | a call makes at least one call, and the calls it makes are a prefix of its plan |
| Engine.FirstRaise | safeexecute/__init__.py:35-82 | the index of the first call that raises: every call before it returned, and it raised, or no call up to the bound raised |
| Engine.Perform | safeexecute/__init__.py:35-82 | calls are made in plan order, each only after all before it returned; the first exception ends the run with `"Error: " + message`, otherwise the logs are returned |
| Engine.PlanPrefix | safeexecute/__init__.py:36-58 | up to install `m`, the calls are the image preparation and then the first `m` installs |
| Engine.PerformStopsAt | safeexecute/__init__.py:35-82 | a run whose call `h` raises after all before it returned makes exactly calls `0..h` and returns the error |
| Engine.PerformReaches | safeexecute/__init__.py:35-82 | when the first `m` calls return, at least `m + 1` calls are made |
| Engine.PerformCompletes | safeexecute/__init__.py:74-79 | when no call raises, every call of the plan is made and the logs are returned |
| Engine.PlanCommands | safeexecute/__init__.py:39-62 | the plan starts one `"pip install " + pkg` container per requirement, in order, then the single run container |
| Engine.CommandOrder | safeexecute/__init__.py:39-62 | every call issues a prefix of the install commands of the unstripped snippet, in extraction order, followed by `python /workspace/temp.py` |
| Engine.CompleteRun | safeexecute/__init__.py:60-79 | when nothing raises, all installs and the run command are issued, the last call deletes temp.py, and the logs are returned |
| Engine.InstallFailureStops | safeexecute/__init__.py:56-58 | when install `k` raises, the result is `"Error: " + message`, exactly installs `0..k` were issued, no run command was issued, and temp.py was not deleted |
| Engine.PerformInstallFailure | safeexecute/__init__.py:39-58 | the same as `InstallFailureStops`, for any plan of requirements |
| Engine.DeletesLast | safeexecute/__init__.py:36-77 | a call's plan has one call per requirement and six more, and only its last call deletes temp.py |
| Engine.ErrorKeepsTempFile | safeexecute/__init__.py:35-82 | when call `h` is the first that raises, the result is `"Error: " + message`, exactly calls `0..h` were made, and none of the calls before `h` deleted temp.py |
| Engine.NoDirectiveNoInstall | safeexecute/__init__.py:27-39 | a snippet without `pip install ` issues no install command, at most the run command |
| Engine.UniformMount | safeexecute/__init__.py:22-69 | the workspace defaults to `join(cwd, "WORKSPACE")`; every container started uses the engine's image, the mount `abspath(workspace)` at `/workspace` in mode `rw`, working directory `/workspace`, and is detached |
| Engine.PlanMount | safeexecute/__init__.py:42-73 | every container of the plan, install or run, uses the engine's image, the one workspace mount, working directory `/workspace`, and is detached |
| Requirements.FirstLineDirective | safeexecute/__init__.py:27 | a first line `pip install <pkg>` puts `pkg` first in the extracted list, ahead of the requirements of the rest |
| Fences.FenceAfterLine | safeexecute/__init__.py:29-30 | text without a backtick before the first fence does not change where the fenced block starts |
| Engine.DirectiveOutsideFence | safeexecute/__init__.py:27-30 | a directive on the line before a ```python block is still extracted, while the staged text comes only from inside the block |
| Engine.FirstCommand | safeexecute/__init__.py:39-44 | once the image is prepared, the first command issued is `"pip install " + ` the first requirement |
| Engine.PerformFirstCommand | safeexecute/__init__.py:39-44 | the same as `FirstCommand`, for any plan of requirements |
| Engine.Attempt | safeexecute/__init__.py:40-58 | one call is recorded after the calls made so far, which stay the plan's first calls; it returns, so that every call up to it has returned, or raises with the message the oracle gives |
| Engine.RunStaged | safeexecute/__init__.py:60-77 | the run phase records its calls; it stops at the first of its five calls that raises, which is the last call recorded; otherwise the recorded calls are the whole plan and all returned |
| Engine.StoppedReport | safeexecute/__init__.py:80-82 | the report of a call whose call `h` raised: the calls up to `h`, and `"Error: " + message` |
| Engine.ErrorReport | safeexecute/__init__.py:56-58 | returning `"Error: " + message` with the calls recorded so far, the last of which raised, is exactly what the reference function reports |
| Engine.CompletedReport | safeexecute/__init__.py:74-79 | the report of a call in which nothing raised: every call and the logs |
| Engine.Stage | safeexecute/__init__.py:22-34 | before the `try` block: the workspace, the temp file path in it, the requirements of the unstripped snippet, the stripped text, and the workspace mount |
| Engine.InstallAll | safeexecute/__init__.py:37-58 | the install loop records one install call per requirement, in plan order, and stops at the first that raises; otherwise all installs returned |
| Engine.ExecutePythonCode | safeexecute/__init__.py:21-82 | the method returns exactly the reference report: workspace, temp file, staged text, the calls it recorded as it made them, and result |

## Left out

- `install_docker_image` and `docker.from_env()` are one call, `PrepareImage`. The image lookup inside it, the bare `except` around it and the pull are Docker SDK I/O. Only raising from that call as a whole is modelled.
- `client.containers.run`, `wait`, `logs`, `remove` and the decoding of the logs are Docker I/O. They are the oracle `Docker`: one outcome per call, plus the log text.
- `os.path.exists`, `os.makedirs`, writing `temp.py` and `os.chmod(0o755)` happen before the `try` block. They are filesystem I/O. The report records the path of the temp file and the text staged into it, but not the writing. An exception from these calls, which the code does not catch, is not modelled.
- `os.remove(temp_file)` is modelled only as the call `DeleteFile` made inside the `try` block. Its effect on the disk is not modelled.
- `os.getcwd()` and `os.path.abspath` are host parameters. `os.path.join` is modelled for POSIX paths only.
- `logging` calls are side effects only and are left out.
- Detached containers are never awaited during installs. Whether installed packages are visible to the run container is Docker behaviour, not modelled.
- Only `except Exception` is modelled: every raise the oracle reports is caught. `BaseException` subclasses such as `KeyboardInterrupt` are not modelled.
- The message is `str(e)` as the oracle gives it. How an exception renders to a string is not modelled.
- `if package_requirements:` is modelled by the loop itself: an empty list runs no install.
- Python's general regular-expression engine is not modelled. Only `findall` of `pip install (.*)` is written out, with `.` excluding exactly `'\n'`.
- `setup.py` (packaging metadata) and the `__main__` block are not part of this model.
- A session store, a backend selector, a namespace-sandbox argument builder, an alias-table dependency resolver and a result classifier have no code in this version of the engine. They are not modelled.
