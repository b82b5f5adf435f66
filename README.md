# lambda-deploy, modelled in Dafny

`lambda-deploy` deploys a function to AWS Lambda. It is invoked as
`lambda-deploy --directory <path> --env <name>`. It then:

1. reads `<path>/deploy.json`, which holds one record per environment (`dev`, `qa`, `prod`);
2. selects the record for the lower-cased `--env`;
3. defaults its region to `us-west-2` when the selected record names none;
4. overrides its directory with `<path>`;
5. archives `<path>/src` into `<function name>.zip`;
6. uploads the archive with "publish a new version" set;
7. deletes the archive.

Every error the tool checks ends the process through `log.Fatal`.

This project models that pipeline:

- `strings.dfy` (module `Strings`) models the ASCII part of Go's `strings.ToLower`, which is used to normalise the environment key.
- `lambda_deploy.dfy` (module `LambdaDeploy`) holds the rest:
  - the `Config` and `Environments` records;
  - the argument checks of `main` and the whole run (`Deploy`);
  - the post-parse resolution of `ReadConfigFile`, written as the source's step-by-step updates of a local record and proved equal to the function `Resolve`;
  - the derived locations `<path>/deploy.json`, `<directory>/src` and `<name>.zip`;
  - the control flow of archiving and pushing.

Everything the tool gets from outside is an input, bundled in the datatype `Effects`. This covers:

- which paths can be read and what they decode to;
- whether a session can be built;
- which directories the archiver can add;
- which archives can be read back;
- whether the remote update succeeds.

Each `log.Fatal` is an `Err` of the datatype `Failure`.

The archive is deleted only after an upload attempt, whether that attempt succeeds or fails (lambda-deploy.go:145, 150). It stays on disk when it cannot be read back (lambda-deploy.go:132-136) or when `AddAll` fails after `Create` (lambda-deploy.go:111-118). `PushLambda` and `Deploy` state exactly when `removed` holds. An unknown environment key is not rejected: it selects a zero record with an empty function name (`UnknownKeyYieldsZeroConfig`).

## Model

| member | source | states |
|---|---|---|
| `Strings.LowerChar` | lambda-deploy.go:46 | the image is never an upper-case ASCII letter; an upper-case letter maps to the lower-case letter at the same alphabet position; every other character is unchanged |
| `Strings.ToLower` | lambda-deploy.go:46 | the result has the input's length, holds `LowerChar` of the input's character at every position, and contains no upper-case ASCII letter |
| `Strings.ToLowerIdempotent` | lambda-deploy.go:46 | lower-casing an already lower-cased key changes nothing |
| `Strings.ToLowerFixesExactlyLower` | lambda-deploy.go:46 | `ToLower(s) == s` exactly when `s` has no upper-case ASCII letter |
| `Strings.ToLowerEmpty` | lambda-deploy.go:41-46 | only the empty key lower-cases to the empty key, so the emptiness check and lower-casing commute |
| `Strings.ToLowerMatches` | lambda-deploy.go:33-46 | a key lower-cases to a lower-case name exactly when it spells that name in any mixture of cases |
| `LambdaDeploy.ConfigFilePath` | lambda-deploy.go:59 | definition, no contract: the configuration file read for a base directory is `path + "/deploy.json"` |
| `LambdaDeploy.SourceLocation` | lambda-deploy.go:107 | definition, no contract: the archived directory is the config's `Lambda_Directory + "/src"` |
| `LambdaDeploy.ArtifactName` | lambda-deploy.go:108 | definition, no contract: the archive is named `Lambda_Name + ".zip"` |
| `LambdaDeploy.Select` | lambda-deploy.go:70-78 | definition, no contract: `dev`, `qa` and `prod` pick `e.dev`, `e.qa` and `e.production`; any other key gets the zero record (there is no default case) |
| `LambdaDeploy.ConfigFilePathInjective` | lambda-deploy.go:59 | distinct path arguments give distinct config-file paths |
| `LambdaDeploy.ArtifactNameInjective` | lambda-deploy.go:108 | configurations naming distinct functions produce distinct archive names |
| `LambdaDeploy.Resolve` | lambda-deploy.go:70-85 | the resolved config keeps the selected record's function name; its directory is the path argument; its region is never empty, equals the record's region when that is set and `us-west-2` when it is empty; it differs from the selected record only in directory and region |
| `LambdaDeploy.ReadConfigFile` | lambda-deploy.go:57-86 | an unreadable `<path>/deploy.json` gives `ConfigUnreadable`, one that does not decode gives `ConfigUnparsable`, otherwise the result is `Resolve` of the decoded environments, the key and the path |
| `LambdaDeploy.KnownKeysSelectTheirRecord` | lambda-deploy.go:71-78 | `dev`, `qa` and `prod` resolve to the whole `dev`, `qa` and `prod` record respectively, with only the region defaulted when empty and the directory replaced by the path |
| `LambdaDeploy.UnknownKeyYieldsZeroConfig` | lambda-deploy.go:70-85 | any other key resolves, with no error, to an empty function name, the path argument and the default region |
| `LambdaDeploy.RegionIsDefaultExactly` | lambda-deploy.go:80-82 | the resolved region is `us-west-2` exactly when the record's region was empty or already `us-west-2` |
| `LambdaDeploy.ResolveIsStable` | lambda-deploy.go:70-85 | resolving an already-resolved record again with the same path returns it unchanged |
| `LambdaDeploy.ArchivedSourceFollowsArgument` | lambda-deploy.go:84-107 | the archived directory is `<path>/src` whatever the file's directory field held |
| `LambdaDeploy.KeyCaseIsIgnored` | lambda-deploy.go:46-78 | a key spelling a known environment in any case resolves like its lower-case spelling |
| `LambdaDeploy.ShoutedDevKeySelectsDev` | lambda-deploy.go:46-78 | `DEV` and `Dev` resolve like `dev` |
| `LambdaDeploy.ZipContents` | lambda-deploy.go:106-123 | archiving succeeds exactly when `<directory>/src` can be added, and then yields `<name>.zip`; otherwise it fails with `ZipFailed` |
| `LambdaDeploy.PushLambda` | lambda-deploy.go:127-152 | a request is sent exactly when the archive can be read back; it names the config's function, carries the archive's bytes and always publishes; the archive is removed exactly when a request was sent; the push succeeds exactly when the request is accepted; otherwise it fails with `ArtifactUnreadable` or `UploadFailed` |
| `LambdaDeploy.Deploy` | lambda-deploy.go:30-52 | an empty directory fails with `NoDirectory`, otherwise an empty env fails with `NoEnvironment`; then each stage's failure (config read, decode, session, archive, read-back, upload) is the outcome exactly when the earlier stages passed; a sent request names the function resolved for the lower-cased key and publishes; the archive is created once a session exists and removed exactly when a request was sent; a successful run deployed the resolved config |

## Left out

- JSON decoding (lambda-deploy.go:65) is library code. A readable file is either `Malformed` or decodes to an `Environments` value. Go's rules for missing or extra fields are not modelled.
- File reads (lambda-deploy.go:59, 132) are the maps `Effects.configFiles` and `Effects.artifacts`. A missing key means the read failed.
- The archiver library (lambda-deploy.go:110-120) is modelled only as the set `Effects.archivable` of source directories it can add. Its archive format, the ignored errors of `Create` and `Close`, and a zip round-trip cannot be stated from this source.
- AWS session construction (lambda-deploy.go:91-102) is reduced to the flag `Effects.sessionAvailable`. Credential lookup and the region handed to the session and the client are not modelled.
- The remote `UpdateFunctionCode` call (lambda-deploy.go:138-142) is the request value it receives plus the flag `Effects.uploadAccepted`. The remote service's error kinds are not distinguished, because the tool treats them all alike.
- `os.Remove` is only the flag `removed`. Whether the deletion itself succeeds is not modelled; the tool ignores that result.
- `log.Print` output and `flag` parsing are left out. Each `log.Fatal` is an `Err` value.
- Strings.ToLower: only ASCII letters are lower-cased, because Unicode case mapping is not modelled. A key containing non-ASCII upper-case letters is therefore modelled as left unchanged at those positions.
