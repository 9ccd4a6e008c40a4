# containerdev, modelled in Dafny

containerdev launches a development container from a named profile in a
YAML file: `containerdev <name>` finds the profile, derives its run options
and runs `docker run --rm …` with them. This project models the two
deterministic pieces of that path and proves their contracts:

- **Profile resolution** (`launcher.dfy`, module `Launcher`, from main.go):
  `GetContainerConfig` scans the profiles in declaration order and returns
  the first whose name equals the key exactly; `GetRunOptions` copies the
  profile's name, image, stdin and as-user fields, binds the working
  directory (when `mount_workdir` is set) and every mount to itself in the
  volume map, sets the working directory and copies the command.
  `PrepareInvocation` chains argument check → lookup → derivation →
  argument vector as main's closure does, up to starting docker.
- **Argument construction** (`docker.dfy`, module `Docker`, from docker.go):
  `Args` builds `run --rm`, then the user-mapping flags (two read-only bind
  mounts of `/etc/passwd` and `/etc/group` and `-u uid:gid`), then
  `--entrypoint X`, then the image, then the command. `Dec` is the decimal
  formatting of `%d`, with its inverse `ParseDec`.
- `wrappers.dfy` holds `Option` (for Go's nil pointer) and `Result` (for
  Go's `error` returns).

The environment enters as parameters: `os.Getwd` is a
`Result<string, string>` (a path or a failure cause), `os.Geteuid` and
`os.Getegid` are `nat`s, `os.Args` is a sequence of strings, and the parsed
configuration is a `Config` value.

Each imperative Go function is a Dafny method with loops or step-by-step
updates, proved equal to a specification function (`Lookup`,
`DeriveRunOptions`, `ExpectedArgs`, `Invocation`); the properties of those
functions are lemmas.

Where the documentation and the code disagree, the model follows the code:

- The design documentation describes `--name`, `-i`, `-t`, `-v host:ctr`
  and `-w` flags for the name, stdin, tty, volumes and working directory.
  docker.go emits none of these. `Args` does not emit them either, and
  `ArgsIgnoreNameStdinVolumesWorkDir` proves that those fields have no
  effect on the vector.
- docker.go:11-16 declares `RunOptions` with only Image, EntryPoint, AsUser
  and Cmd, but main.go:28-35 also sets Name, Stdin, Volumes and WorkDir.
  The Dafny `RunOptions` holds the union of these fields. It has no tty
  field, because no code sets or reads one.
- The documentation mentions a mode that forces a shell entrypoint. No code
  implements it, so derived options always have an empty entrypoint.

## Model

| member | source | states |
|---|---|---|
| `Docker.Dec` | docker.go:31 | the `%d` numeral of a uid/gid is non-empty, all decimal digits, has no leading zero, and is one digit exactly for values below ten |
| `Docker.ParseDecOfDec` | docker.go:31 | reading the numeral back gives the number: the formatting loses nothing |
| `Docker.DecInjective` | docker.go:31 | different numbers format to different numerals |
| `Docker.UserSpecColon` | docker.go:31 | in `"%d:%d"` the separating colon sits right after the uid digits and every other character is a digit |
| `Docker.UserSpecInjective` | docker.go:25-31 | the `-u` value determines both the uid and the gid |
| `Docker.Args` | docker.go:18-45 | the conditional appends produce exactly the vector flags + image + command, starting with `run --rm`, with the image right after the flags and the command as the suffix |
| `Docker.ArgsLayout` | docker.go:18-45 | the length is 3 + 6 (as-user) + 2 (entrypoint) + length of the command; positions 2..7 are the two read-only mounts and `-u uid:gid` when AsUser holds; `--entrypoint X` comes after them and immediately before the image; the suffix after the image is the command |
| `Docker.PlainArgs` | docker.go:18-45 | without user mapping and entrypoint the vector is `run --rm <image>` followed by the command |
| `Docker.EntryPointFlagIff` | docker.go:34-36 | `--entrypoint` occurs among the flags before the image if and only if EntryPoint is non-empty |
| `Docker.ArgsIgnoreNameStdinVolumesWorkDir` | docker.go:18-45 | changing Name, Stdin, Volumes or WorkDir leaves the vector unchanged |
| `Docker.ArgsIgnoreIdsWithoutAsUser` | docker.go:24-32 | the uid and gid affect the vector only when AsUser holds |
| `Docker.FullOptionsExample` | docker.go:18-45 | for a profile with name, stdin, a volume and a working directory set, uid 1000 and gid 100, the exact vector contains only the user mapping, the entrypoint, the image and the command |
| `Launcher.FirstIndex` | main.go:62-70 | the index found is that of a profile with the exact name and no earlier profile has it; there is no index exactly when no profile carries the name |
| `Launcher.GetContainerConfig` | main.go:62-70 | the scan returns None exactly when no profile's name equals the key; otherwise it returns the profile at the first matching position |
| `Launcher.LookupExactName` | main.go:64 | a profile found carries exactly the requested name and belongs to the configuration |
| `Launcher.LookupFirstMatch` | main.go:63-67 | whenever some profile at position i has the name, one is found at position at most i: later duplicates are never returned |
| `Launcher.LookupStableUnderAppend` | main.go:63-67 | appending profiles behind an existing match does not change the result |
| `Launcher.DuplicateNameResolvesToFirst` | main.go:63-67 | in `[A, B, A']` where A and A' share a name, that name resolves to A |
| `Launcher.DeriveRunOptionsMeaning` | main.go:27-56 | derivation fails exactly when the workdir is to be mounted and Getwd failed, and then with that cause; otherwise name, image, stdin and as-user are copied, the entrypoint is empty, the command is copied, each volume maps a path to itself, the volume keys are the mounts (plus the working directory when mounted), and WorkDir is that directory or empty |
| `Launcher.GetRunOptions` | main.go:27-56 | the in-place filling of the volume map in the loop over the mounts yields exactly the derived options, with all the properties above |
| `Launcher.GetwdIgnoredWithoutMountWorkdir` | main.go:37-45 | without `mount_workdir`, derivation succeeds and does not depend on what Getwd would report |
| `Launcher.DuplicateMountCollapses` | main.go:47-49 | mounting a path that is already listed changes nothing |
| `Launcher.MountOrderIrrelevant` | main.go:47-49 | reordering the mounts list leaves the derived options unchanged |
| `Launcher.PathSetSize` | main.go:47-49 | a list of n mounts names at most n distinct paths |
| `Launcher.VolumeCount` | main.go:34-49 | there are at most as many volumes as mounts, plus one for the working directory |
| `Launcher.SameMountTwice` | main.go:47-49 | the same path mounted twice gives exactly one volume, bound to itself |
| `Launcher.PrepareInvocation` | main.go:73-92 | main's closure stops with "missing container name" exactly when fewer than two arguments are given, with "container not found" exactly when no profile carries the name, and otherwise yields the derived vector or the Getwd error |
| `Launcher.InvocationRunsFirstMatch` | main.go:83-93 | a successful invocation runs the first profile of that name: `run --rm` first, its image right before its command at the end, and the expected length |

## Left out

- `readConfig` and `writeEmptyConfig` (main.go:102-151): opening, creating and seeking the file, creating the directory, and YAML encoding and decoding are I/O. The configuration is a parameter instead.
- `configFile` (main.go:13-15): the path comes from an XDG library and the environment.
- `Run` (docker.go:47-58): starting the `docker` process and wiring its standard streams is process plumbing. The model stops at the argument vector.
- run.go: the signal handler, the goroutine, the cancellation context, `os.Exit` with the child's exit code, and `panic` are concurrency and process-exit behaviour.
- `os.Getwd`, `os.Geteuid`, `os.Getegid` and `os.Args` are parameters, not modelled system calls.
- `PrepareInvocation`: errors are kinds (`MissingContainerName`, `ContainerNotFound`, `WorkdirUnavailable`) without the message text that `fmt.Errorf` wraps around them.
- `Docker.Args`: uid and gid are `nat`. Go's `int` results can be -1 on platforms without user ids, which would format with a minus sign.
- `Launcher.GetRunOptions`: Go distinguishes a nil `Cmd` from an empty non-nil slice. Both are the empty sequence here, so copying `Cmd` only when it is non-empty is an identity. That is also how `args()` behaves, since it tests only the length.
- The argument vector is an ordered sequence. The volume map is unordered, but no code iterates over it, so nothing depends on its order.
