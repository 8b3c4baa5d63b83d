# oracle-vps-grabber in Dafny

oracle-vps-grabber keeps asking Oracle Cloud for an Always-Free ARM instance
(`VM.Standard.A1.Flex`, 4 OCPUs, 24 GB) until one is granted. This project models its
decision-making core and proves properties of it:

- `OracleInstancePrep.__init__` (`utils/oracle.py`). It either runs the first-time
  setup or reads the nine values cached in `config.json`. Setup means:
  - the instance, VCN, subnet, gateway and VNIC names are taken from the environment,
    and blank ones are replaced by defaults;
  - the availability domain is chosen;
  - `get_image` picks the aarch64 image whose display name has the greatest text after
    its last `-`, compared as strings (so `…-2` outranks `…-12`).

  It then builds the fixed `LaunchInstanceDetails` request.
- `main` (`main.py`). This is the retry loop around `create_instance`:
  - a network failure or a 429 grows one shared counter and sleeps linearly;
  - a 500 sleeps 30 seconds;
  - a 502 notifies and sleeps 60 seconds;
  - a launch, or any other status, notifies and returns.
- `send_to_discord` (`main.py`). It builds the webhook message.

Modules:

| file | module | contents |
|---|---|---|
| `wrappers.dfy` | `Wrappers` | `Option` and `Result` |
| `pystr.dfy` | `PyStr` | the Python `str` behaviour the code relies on: `isspace`/`strip`, `in`, `split("-")[-1]`, and the code-point order of `<` |
| `oracle.dfy` | `Oracle` | the setup and cache paths as the function `Resolve`, `get_image`, the launch request, and the class `OracleInstancePrep` whose method `Prepare` assigns the object's fields as `__init__` does |
| `discord.dfy` | `Discord` | the message of `send_to_discord` and a parser proved to be its inverse |
| `controller.dfy` | `Controller` | the handling of one attempt (`Step`) and of a whole script of attempts (`Trace`), the loop `RetryLoop` proved against `Trace`, and `Provision`, which runs setup, then the loop, then the posts |

Behaviour of the code that the model keeps:

- **Shared counter.** 429s and network failures grow the same counter. 500 and 502
  reset it to 0.
- **Every 500 is retried**, whatever its message.
- **An unset name variable is an error.** `.strip()` is called on `None`, so setup
  fails with `NameUnset`. Only a set but blank value gets the default.
- **A failing run can notify more than once.** Each 502 before the fatal status also
  sends a success=False notice.
- **The "ignored" sentence is never sent by `main`.** `main` never passes
  `continued=True`, so the sentence never appears in the loop's notices.
- **The success notice reports `None`**, because `create_instance` returns nothing.
- **Several availability domains always fail.** In `get_av_domain` the loop
  `for result in result` rebinds the list's name to its last domain, so
  `result[choice - 1]` raises whatever the operator answers. Setup succeeds only with
  exactly one domain; several give `SeveralDomains`.

## Model

| member | source | states |
|---|---|---|
| PyStr.Strip | utils/oracle.py:25 | the stripped text is no longer than its input and neither starts nor ends with white space (its blank test is `PyStr.StripEmptyIffAllSpace`) |
| PyStr.Contains | utils/oracle.py:201 | `sub in s`: `sub` occurs at some position of `s` (no contract of its own; used by `Oracle.Aarch64Images`) |
| PyStr.LastSegment | utils/oracle.py:203 | `split("-")[-1]`; its meaning is stated by `PyStr.LastSegmentAfterLastDash` |
| PyStr.Less | utils/oracle.py:203 | `<` on `str`, code point by code point; its order properties are `PyStr.LessIrreflexive`, `PyStr.LessTrichotomy` and `PyStr.LessTransitive` |
| PyStr.StripEmptyIffAllSpace | utils/oracle.py:25 | `not s.strip()` holds exactly when every character of `s` is Python white space |
| PyStr.LastSegmentAfterLastDash | utils/oracle.py:203 | the sort key `split("-")[-1]` is a suffix of the display name with no `-` in it, and the character before it is `-` when it is not the whole name |
| PyStr.LessIrreflexive | utils/oracle.py:203 | string `<` is irreflexive |
| PyStr.LessTrichotomy | utils/oracle.py:203 | any two strings are ordered one way, equal, or ordered the other way |
| PyStr.LessTransitive | utils/oracle.py:203 | string `<` is transitive |
| Oracle.DefaultName | utils/oracle.py:24-25 | a value that is not all white space is kept verbatim, unstripped; a blank one becomes the default; a non-blank default never yields a blank name |
| Oracle.FirstMissing | utils/oracle.py:62-72 | reports no key exactly when all keys are present, and otherwise the first missing key in reading order |
| Oracle.SetupNames | utils/oracle.py:24-37 | succeeds exactly when all five variables are set; otherwise fails on the first unset one, in source order; on success each name is its variable or, when that is blank, its fixed default, and no name is blank |
| Oracle.AvDomain | utils/oracle.py:173-194 | succeeds exactly when there is one domain, and returns it; an empty list fails with the `result[0]` IndexError, several with the error of `result[choice - 1]` on the rebound name |
| Oracle.Aarch64Images | utils/oracle.py:201 | keeps exactly the images whose display name contains `aarch64` |
| Oracle.Key | utils/oracle.py:203 | the sort key, the display name's text after its last `-`; stated by `PyStr.LastSegmentAfterLastDash` |
| Oracle.InsertDesc | utils/oracle.py:203 | insertion adds exactly the new image to the list's contents |
| Oracle.SortDesc | utils/oracle.py:203 | the sort is a permutation of its input |
| Oracle.InsertDescKeepsOrder | utils/oracle.py:203 | inserting into a list in descending key order keeps it in descending key order |
| Oracle.SortDescIsDescending | utils/oracle.py:203 | the sort's output is in descending key order |
| Oracle.GreatestAarch64 | utils/oracle.py:201-203 | the reference pass over the unfiltered images returns a position inside the list |
| Oracle.GreatestAarch64IsGreatest | utils/oracle.py:201-203 | the pass finds nothing exactly when no image is aarch64; otherwise its position holds an aarch64 image with a greatest key among the aarch64 images, and every aarch64 image before it has a strictly smaller key |
| Oracle.SortHeadIsGreatest | utils/oracle.py:201-203 | the head of the stable descending sort of the filtered images is the image the pass finds, so ties go to the earliest aarch64 image in input order |
| Oracle.GetImage | utils/oracle.py:201-206 | fails exactly when no image is aarch64, and then with the empty-list error; otherwise returns the id of an image at a position of the input that is aarch64, whose key no aarch64 image exceeds, and before which every aarch64 image has a strictly smaller key |
| Oracle.LoadCached | utils/oracle.py:62-72 | succeeds exactly when all nine keys are present; otherwise fails on the first missing key in reading order; on success each of the nine values is the one stored under its key |
| Oracle.Resolve | utils/oracle.py:23-72 | the values `__init__` settles on or the exception it raises; stated by `Oracle.CacheSkipsSetup` and `Oracle.SetupWhenAbsent` |
| Oracle.CacheSkipsSetup | utils/oracle.py:23-72 | with `config.json` present, the outcome depends only on the file and not on the environment, tenancy or cloud; a parsed file gives exactly the cache load |
| Oracle.SetupWhenAbsent | utils/oracle.py:23-55 | without `config.json`, setup succeeds exactly when the names are set, there is exactly one domain and an aarch64 image exists; the ids and key come from the cloud, the compartment is the tenancy, the domain is the only one, the image is `get_image`'s, and the names are the defaulted settings |
| Oracle.LaunchDetails | utils/oracle.py:78-100 | the request has the ARM flex shape, 4 OCPUs and 24 GB, in-transit encryption, a public IP, a private DNS record, no IPv6, the same subnet on request and VNIC, and the key as the only metadata entry; it carries the chosen compartment, name, image, subnet, key, domain and VNIC name unchanged |
| Oracle.LaunchDetailsDeterminedByTarget | utils/oracle.py:78-100 | two settings give the same request exactly when they agree on the values the request carries |
| Oracle.OracleInstancePrep.constructor | utils/oracle.py:13-21 | the object records the tenancy |
| Oracle.OracleInstancePrep.Prepare | utils/oracle.py:13-100 | raises exactly when `Resolve` fails, and then with its error; otherwise the nine fields hold `Resolve`'s values and the request is built from them; on the setup path the five name fields hold the defaulted settings; on the cache path the VCN, subnet and gateway names are untouched |
| Oracle.OracleInstancePrep.Settle | utils/oracle.py:23-72 | the setup or the cache path, as `Resolve` states, leaving the five name fields set on setup and the VCN, subnet and gateway names untouched otherwise |
| Oracle.OracleInstancePrep.SetUp | utils/oracle.py:24-55 | the setup path as `Resolve` states, with the name fields set to the defaulted settings |
| Oracle.OracleInstancePrep.Store | utils/oracle.py:64-100 | the nine fields take the settled values, the request is built from them, and the VCN, subnet and gateway names are untouched |
| Discord.Content | main.py:42-48 | the f-string of the message; what it determines is stated by `Discord.ParseRendered`, `Discord.RenderParsed`, `Discord.MentionIffUserId` and `Discord.EndsWithSentenceIffContinued` |
| Discord.SendToDiscord | main.py:39-50 | posts nothing exactly when the webhook is unset or empty; otherwise posts the rendered notice to the webhook, and that text reads back as the notice |
| Discord.ParseRendered | main.py:42-48 | every rendered message reads back as the notice it renders, for a one-line user id |
| Discord.RenderParsed | main.py:42-48 | any text that reads back as a notice is exactly that notice rendered |
| Discord.MentionIffUserId | main.py:41-42 | the message opens with `<@` exactly when a non-empty user id is set |
| Discord.EndsWithSentenceIffContinued | main.py:43-48 | the message ends in the "ignored" sentence's full stop exactly when `continued` is true |
| Controller.Step | main.py:13-36 | the handling of one attempt; stated by `Controller.StepMeaning` |
| Controller.Trace | main.py:11-36 | the loop over a script of attempts; `Controller.RetryLoop` is proved against it and `Controller.StopsAtFirstTerminal` states when it returns |
| Controller.StepMeaning | main.py:13-36 | an attempt ends the loop exactly when it is a launch or an unclassified status; it sends exactly one notice on a launch, a 502 or an unclassified status, and none otherwise; only the launch's notice reports success; no sleep is shorter than 30 seconds |
| Controller.RetryLoop | main.py:8-36 | the loop's effects, whether it returned, and its number of launch calls are those of `Trace` from counter 0 |
| Controller.TraceSplit | main.py:12-36 | once `main` returns, later attempts never happen; otherwise the rest of the script runs from the counter left behind |
| Controller.StopsAtFirstTerminal | main.py:12-36 | `main` returns exactly when the script holds a terminal outcome, and then right after the first one, with every earlier attempt retried; otherwise every attempt is made |
| Controller.RetriesNotifyOnlyFailures | main.py:16-33 | while attempts are retried, every notice sent reports a failure |
| Controller.SuccessEndsRun | main.py:13-15 | after any retried failures, a launch sends the only success notice, carrying `None`, as the last effect, and returns after that call |
| Controller.FatalEndsRun | main.py:34-36 | after any retried failures, an unclassified status sends one failure notice with the error text and returns with no sleep |
| Controller.BadGatewayContinues | main.py:29-33 | a 502 sends a failure notice, sleeps 60 seconds and goes on with the counter at 0, whatever it was |
| Controller.ServerErrorResets | main.py:21-24 | a 500 sleeps 30 seconds, whatever the counter, and goes on with the counter at 0 |
| Controller.RateLimitStreak | main.py:25-28 | in k 429s in a row from counter c, whatever their texts, the j-th sleeps 30·(c+j) seconds, and the counter is left at c+k |
| Controller.NetworkStreak | main.py:16-19 | the j-th of k network failures in a row from counter c sleeps 60·(c+j) seconds, and leaves the counter at c+k |
| Controller.CapacityFlat | main.py:21-24 | k 500s in a row, whatever their texts, each sleep 30 seconds and leave the counter at 0 |
| Controller.RateLimitedThenLaunched | main.py:11-28 | two 429s then a launch give sleeps of 30 and 60 seconds, then the success notice, after three calls |
| Controller.SharedCounter | main.py:16-28 | a 429 right after a network failure sleeps 60 seconds, because both grow the same counter |
| Controller.SleepsAtLeastThirty | main.py:16-33 | every sleep of any run lasts at least 30 seconds |
| Controller.Delivered | main.py:39-50 | with no webhook nothing is posted; otherwise there is one post per notice, in order, each rendering that notice with `continued` false |
| Controller.Provision | main.py:8-36 | a setup error surfaces before any launch, with no effects and no posts; otherwise the run is the loop's `Trace` from counter 0, and the posts are those of its notices |

## Left out

- The OCI SDK calls are not modelled. These are the compute, network and identity
  clients, `make_vcn`, `make_subnet`, `make_gateway`, `oci.wait_until`, `list_images`,
  `list_availability_domains` and `launch_instance`.
  - Their results are inputs in `CloudAnswers`.
  - Their own failures are not modelled.
- `create_instance` is modelled as a finite script of outcomes.
  - The real loop is `while True`. In the model the loop ends when the script runs out,
    and then `stopped` is false.
  - The instance it launches is not modelled.
- `gen_keypair` is left out: RSA generation and key-file writes. The public key is an
  input.
- The prompt of `get_av_domain` (`utils/oracle.py:173-191`) is not modelled.
  - Whatever the operator answers, that branch raises (`SeveralDomains`): an answer
    that is not a number leaves `choice` unbound after the retry, and any number
    indexes the rebound name. Only the exception is modelled, not its Python type.
- The `config.json` write (`utils/oracle.py:59`) is left out.
  - Its text closes the JSON object before `"vnic_name"`, so it does not read back.
  - No write/read round trip is claimed.
- The parsing of `config.json` is not modelled.
  - A file that `json.load` rejects is `Malformed`.
  - Otherwise the file is a map from keys to strings. JSON values other than strings
    are not modelled.
- `os.getenv` and `load_dotenv` are replaced by a map. A variable missing from the map
  is unset.
- The OCI credentials other than the tenancy are left out, because they only reach the
  SDK. An unset tenancy is not modelled.
- `print` output is left out.
- `sleep` is not performed. Each sleep is recorded as a `Sleep` effect.
- `requests.post` is not performed. Each post is returned as a `Post` value, and a
  failing post is not modelled.
- An exception without a `status` attribute is not modelled. At `main.py:21` it would
  raise `AttributeError`, but `Failure` is a closed datatype: a network failure, or a
  service error with a status and its text.
- `str(e)` of a service error is taken as given: it is the `text` field.
- Images carry only their id and display name.
- Discord.ParseRendered: the round trip is stated only for user ids without a line
  break. A user id containing `\n` makes the mention line ambiguous.
