# cdu — a Dafny model of the Cloudflare dynamic-DNS updater

cdu points a set of Cloudflare DNS A records at the machine's public IPv4
address. One *run* does four things in order:

1. find the public address;
2. look up the zone by name (the first zone listed wins);
3. look up one record per configured name (the first record listed wins);
4. update every record to the address.

In *daemon* mode, a cron schedule fires runs. Before each run the daemon
waits until the clock is strictly past the fire time. A run that fails with
a transient error is retried at most three times. A failure that the
retries do not clear ends the daemon.

The model has four modules:

- `Wrappers` (`wrappers.dfy`) holds `Option`, `Result` and `Outcome`.
  It also holds `Collect`, the "first failure in list order" consumption
  that `join_all` followed by a loop of `task??` performs.
- `Options` (`opts.dfy`) holds the options and `record_name_list`, which
  splits the record option on ','. Its inverse is `JoinComma`.
- `Cdu` (`cdu.dfy`) models one run as a pure function over an oracle
  `Provider`. The oracle gives the public address (or none), whether the
  HTTP client can be built, and the provider's answers to zone listings,
  record listings and updates. A run returns its outcome together with the
  list of provider calls it issued, in order. It is proved against a
  reference definition of what the provider should see (`ZoneFound`,
  `RecordFound`, `ExpectedUpdate`, `Reconciles`), stated on the oracle
  directly.
- `Daemon` (`daemon.dfy`) covers the rest of `main`:
  - the retry classifier and the bounded retry;
  - the wait for a fire time, against an abstract clock `now`, where
    `now(t)` is the t-th reading and readings increase;
  - the loop over the upcoming fire times;
  - the dispatch between single-run and daemon mode.

`src/main.rs` carries a copy of `Opts`, `record_name_list` and `Cdu::run`
that is identical to `src/opts.rs` and `src/cdu.rs`. Each is modelled once.
The rows below cite whichever copy a property is easiest to read off.

Three facts about the program shape the model:

- The program keeps no identifier cache. Every run lists the zone and the
  records again.
- A run finds the public address before it builds the client and lists the
  zone. The two steps are not concurrent.
- When several lookups fail, the error reported is deterministic. The
  tasks are awaited in configured order, so the earliest failing name in
  that order decides, not the first task to finish.

## Model

| member | source | states |
|---|---|---|
| Options.Split | src/opts.rs:28 | The pieces number one more than the commas in the input. No piece contains ','. Joining the pieces with "," gives back the input exactly. |
| Options.RecordNameList | src/opts.rs:27-29 | The record name list is never empty. It has one name more than the record option has commas. Joined with "," it is the record option. |
| Options.SplitJoin | src/opts.rs:28 | Splitting undoes joining. Comma-free names joined with "," split back into the same names, empty ones and duplicates included. |
| Options.SplitCharacterised | src/main.rs:50-52 | The split of `s` is the one and only non-empty list of comma-free names that joins back to `s`. This holds for both directions of the equivalence. |
| Options.SplitKeepsEverything | src/opts.rs:28 | "a,,b" splits into "a", "" and "b". Names with leading spaces and repeated names are kept as they are. |
| Wrappers.Collect | src/cdu.rs:92-96 | Consuming joined results succeeds exactly when every result succeeded, and then yields every value in order. Otherwise the error is one of the failures. |
| Wrappers.CollectEarliestFailure | src/cdu.rs:93-95 | The reported error is that of the earliest failing result in list order. |
| Cdu.ResolveAll | src/cdu.rs:70-96 | Resolution succeeds exactly when every configured name has a record. The i-th resolved record is then the first record listed for the i-th name, paired with that name. |
| Cdu.Dispatch | src/cdu.rs:98-129 | There is one update per resolved record, in order. The updates succeed exactly when the provider accepts every one of them. A failure is a request failure. |
| Cdu.InZone | src/cdu.rs:70-131 | There is one record listing per configured name, in order. If a name has no record, no update is issued and the run fails. Otherwise there is one update per name, with the zone id, the first record id, the name, the address as A content, and proxied and ttl unset. Success holds exactly when every record is found and every expected update is accepted. |
| Cdu.Run | src/cdu.rs:42-132 | With no public address the run fails with the public-IP error and calls nothing. If the client cannot be built the run calls nothing. The zone listing is the first call. An unknown zone or failed listing stops the run after that call, with "zone not found" or the request failure. The run succeeds exactly when the reference view `Reconciles` holds. |
| Cdu.RunCallTrace | src/cdu.rs:56-115 | Once the zone is found, the calls are the zone listing, then one record listing per name against the first zone's id, then, only if every name resolved, one update per name with the expected parameters. |
| Cdu.RunReportsEarliestLookupFailure | src/main.rs:192-196 | When some lookups fail, the run reports the earliest failing name in configured order: its request failure, or "record not found" for that name. |
| Daemon.WaitPast | src/main.rs:85-91 | Waiting stops at the first clock reading strictly later than the fire time. Every reading polled before it is not later. |
| Daemon.Retry | src/main.rs:93-101 | A fire time gets between 1 and 1 + 3 attempts. Every attempt but the last failed with a retryable error. The last one succeeded, failed with an error that is not retried, or was the third retry. |
| Daemon.RetryIff | src/main.rs:96-100 | Another attempt follows exactly when the attempt failed with a request failure or a public-IP error and fewer than three retries were made. |
| Daemon.RetryExhausts | src/main.rs:93 | A run that keeps failing with retryable errors is attempted exactly 1 + 3 times. |
| Daemon.RetryOrdered | src/main.rs:93-101 | The attempts of one fire time follow each other. Once the clock is past the fire time, each attempt starts past it. |
| Daemon.HandledAppend | src/main.rs:82-105 | After a successful fire time, appending the next fire time's attempts keeps all attempts sequential, timely, on scheduled fire times, and at most 1 + 3 per fire time. |
| Daemon.HandleNext | src/main.rs:82-105 | One turn of the loop over fire times extends what was handled by one fire time. If that turn ends in failure, the error was not retryable or the retries were spent. |
| Daemon.Schedule | src/main.rs:82-107 | Stated by `Scheduled`. Runs are strictly sequential. The next fire time is handled only after a success, and each run starts strictly after its fire time. The first attempt is attempt 0 of the first fire time. There are at most 1 + 3 attempts per fire time. The daemon ends with its last attempt's outcome. A failure was not retryable or spent the retries. A success means every fire time was handled. |
| Daemon.RunDaemon | src/main.rs:79-108 | A cron string that does not parse fails before any run. Otherwise the daemon keeps every promise of `Scheduled`. It starts with attempt 0 of the first fire time. It stops early only on an error it does not retry or after the third retry. Every attempt is a run of the configured zone and record names against the world at that attempt. |
| Daemon.Launch | src/main.rs:70-76 | Outside daemon mode exactly one run executes, against the configured zone and names, and its outcome is the program's outcome. In daemon mode the program's outcome and attempts are those of the daemon, with every promise of `Daemon.RunDaemon`: sequential and timely attempts, retry only of retryable errors up to three times, at most 1 + 3 attempts per fire time, and each attempt a run of the configured zone and names. |

## Left out

- The Cloudflare HTTP client, credentials and the 30-second HTTP timeout
  are left out. They are network I/O. The provider's answers are the
  oracle `Provider`, and a failed request of any kind is `ApiFailure`.
- The public-address lookup is left out for the same reason. It is the
  oracle field `publicIp`.
- Failure to build the client is the oracle flag `clientBuilds`. It maps to
  the error `Other`, which is not retried.
- tokio spawning and interleaving are not modelled. Every lookup is issued
  before any lookup result is read, and the same holds for updates.
  Results are consumed in configured order. Given the provider's replies,
  the outcome therefore does not depend on the interleaving.
- Within one run, the provider answers identical requests identically. A
  `Provider` maps each request to a single reply, not each call. A name
  configured twice makes two separate lookups and, if resolved, two
  separate updates. In the program one of the pair can fail, for example
  on a rate limit, while the other succeeds. The model cannot express
  that: both get the same reply. The daemon's world can still change
  between attempts, because `world` takes the fire time and the attempt
  number.
- A task that panics (a `JoinError` from `task??`) is not modelled, because
  it lies outside the program's logic.
- The exponential backoff delays and their jitter are left out, because
  they are random timing. Only the bound of three retries and the
  classifier are modelled.
- Cron parsing and `schedule.upcoming` come from an external library. They
  are the parameter `parseCron`: `None` is a parse error, mapped to
  `Other`, and `Some` holds a finite list of upcoming fire times. The
  library's schedule can be endless; the model runs through a finite
  prefix, and running out of fire times ends with success. This matches
  the `Ok(())` after the loop.
- The 999 ms sleep between clock polls is left out. Only the readings
  matter: one reading per poll, and one per attempt.
- Logging, `RUST_LOG` setup and structopt argument parsing are left out,
  because they are I/O and environment concerns. So is the
  "(not an A record)" text built for a log line.
- The token and the debug flag are carried in `Opts` but play no part.
  The default cron expression is part of option parsing and is not
  modelled: `Opts` holds whatever cron string was given.
- Daemon.WaitPast: requires a clock whose readings strictly increase. On
  a clock that stalls before the fire time, the source's loop never ends.
  The model does not cover that case.
- Daemon.Schedule: attempt `j` of a fire time is taken to start at exactly
  the j-th reading after the wait, rather than at some later reading. An
  attempt takes at least one reading, so this shifts times but not order.
- Cdu.Dispatch: a failed update carries no payload of its own, so every
  update failure is `ApiFailure`. "The earliest failing update" cannot be
  told apart from any other failing update by the error value alone.
