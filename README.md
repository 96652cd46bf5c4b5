# PiketOmprengDES in Dafny

A model of the discrete-event simulation behind the canteen tray ("ompreng")
pipeline. The Python program uses simpy. Every tray goes through three stages:

1. **Lauk.** One process per tray waits for one of `PETUGAS_LAUK` servers and
   holds it for a drawn duration. It then adds that duration to `busy_lauk` and
   puts the tray into the store `antrian_lauk`.
2. **Angkut.** A single transport loop polls every 0.5 time units while
   `antrian_lauk` is empty. Otherwise it draws a load and takes
   `min(load, queued)` trays as one batch. It holds a transport server for one
   drawn duration and stamps every tray of the batch with the same
   `selesai_angkut`. It then puts the trays, in order, into `antrian_nasi`.
3. **Nasi.** A single finish loop takes one tray at a time and serves it. It
   appends the tray's row (with `total_waktu = selesai - datang`) to `data` and
   increments `completed`.

`generate` starts the tray processes `0 .. TOTAL_OMPRENG - 1` at time 0.
`run` starts the generator and the two loops, lets the environment run, and
summarises `data` with `analyze_results`.

How the model is built:

- **Value modules.** The run's state is the value `Pipeline.Sim`. It holds:
  - the clock and the pending resumptions;
  - the three server pools and the two stores;
  - `data`, `completed` and the busy accumulators;
  - where each process is suspended.

  Each resumption of a process is a function on `Sim`: `LaukStage`,
  `AngkutStage`, `NasiStage` and `Simulation.GenerateStep`.
  `Simulation.Dispatch` is one step of `env.run()`: it takes the earliest
  pending resumption (the oldest first among those due at the same instant)
  and runs that process until it next suspends.
- **Run invariant.** `Pipeline.Inv` is proved kept by every resumption. It
  states:
  - the clock and process bookkeeping;
  - pool occupancy;
  - FIFO flow through both stores;
  - timestamp order;
  - that the counters and accumulators are the sums of the drawn durations.

  `Outcome` derives from it what holds at every moment and what holds when
  `env.run()` returns.
- **The class.** `PiketOmprengModel.PiketOmprengDES` is the object itself.
  Its fields are updated in place by one method per resumption. Each method is
  proved to leave exactly the state the matching step function describes, so
  everything proved about the steps holds of the object.
  - The pools, the busy accumulators and the environment's process frames are
    grouped into record-valued fields.
  - `TakeBatch` and `PutBatch` are the two counted `for` loops of
    `proses_angkut`.
  - `Run` is `run`.

The random draws (`random.uniform`, `random.randint`) are replaced by the
caller-supplied streams `Config.Draws`, consumed in draw order. Their range
precondition is `Draws.Fits`.

## Model

| member | source | states |
|---|---|---|
| Config.Default | app.py:15-43 | the dataclass defaults give a valid configuration with `TOTAL_OMPRENG = NUM_MEJA * MAHASISWA_PER_MEJA = 180`, staff 3/2/2, loads 4..7 and the duration ranges lauk 30-60, angkut 20-60, nasi 30-60 |
| Config.DrawsInRange | app.py:81-92 | under a valid configuration every drawn duration is non-negative and every drawn load is between 1 and `ANGKUT_MAX_LOAD` |
| Resource.Create | app.py:56-58 | a new pool has the configured capacity, no holders and no waiters |
| Resource.Request | app.py:99-100 | a request is granted at once exactly when a server is free; otherwise the requester joins the end of the wait list; the pool stays valid (holders ≤ capacity, nobody waits while a server is free) |
| Resource.Release | app.py:99-105 | releasing hands the server to the head of the wait list if anyone waits, else frees it; the holder set loses the releaser and gains exactly the new holder |
| Scheduler.Schedule | app.py:103 | a timeout's resumption keeps the pending list in time order, adds exactly one resumption of that process and none of any other |
| Scheduler.ScheduleAtSlot | app.py:103 | the resumption goes after every one due no later (same-instant resumptions keep their scheduling order) and before every later one, other resumptions untouched |
| Scheduler.PopHead | app.py:189 | `env.run()` removes exactly the earliest resumption and the clock set to its time is not after any remaining one |
| Ompreng.CompletedRowOrdered | app.py:165-171 | a completed row's stamps are in stage order `datang ≤ mulai_lauk ≤ selesai_lauk ≤ selesai_angkut ≤ mulai_nasi ≤ selesai_nasi`, and `0 ≤ selesai_nasi - mulai_lauk ≤ total_waktu` |
| Ompreng.ChronologicalOrdered | app.py:165-175 | rows appear in `data` in the order their nasi services ended |
| Analysis.TotalWaktu | app.py:198 | the `total_waktu` column has one entry per row, each that row's total time |
| Analysis.Max | app.py:198 | the maximum of a non-empty column is one of its values and no value exceeds it |
| Analysis.AnalyzeResults | app.py:194-206 | fails (missing `total_waktu` column) exactly when `data` is empty; otherwise `durasi_total_detik` is the largest `total_waktu`, `avg_total_time` times the row count is their sum, and `total_ompreng` is the row count |
| Analysis.MeanAtMostMax | app.py:198-203 | the mean total time is at most the maximum, and non-negative when all total times are |
| Pipeline.Initial | app.py:52-68 | `__init__` leaves time 0, no pending resumption, empty `data`, `completed = 0`, zero accumulators, both stores empty, and the three pools at their configured sizes with no holder and no waiter; no process is started yet |
| Pipeline.BatchSize | app.py:130-131 | the batch size is `min(kapasitas, queued)`: never more than either, all queued trays when the load covers them, the full load otherwise, and at least one when both are positive |
| Pipeline.Stamped | app.py:141-142 | every tray of the batch gets the same `selesai_angkut`, in batch order, ids unchanged |
| LaukStage.LaukDrawAvailable | app.py:101-102 | a tray starting its lauk service always has a lauk draw left: fewer lauk draws are used than trays started |
| LaukStage.ArriveKeeps | app.py:95-100 | a tray's process records `datang` and requests a lauk server (granted now or queued), keeping the run invariant |
| LaukStage.StartLaukKeeps | app.py:100-103 | once granted, the tray records `mulai_lauk`, draws the next lauk duration and waits it, keeping the run invariant |
| LaukStage.FinishLaukKeeps | app.py:103-112 | after the service the server goes to the longest-waiting tray, `busy_lauk` grows by the drawn duration and the tray enters `antrian_lauk` last, keeping the run invariant |
| AngkutStage.AngkutDrawAvailable | app.py:125-137 | when a batch is formed a load and a trip duration are still available: trips never outnumber the trays taken |
| AngkutStage.LoadTakesOldest | app.py:120-135 | a trip takes the oldest trays of `antrian_lauk` in order and leaves the rest queued: at least one, at most the drawn load, and the whole store when fewer are queued |
| AngkutStage.AngkutPollWaits | app.py:118-122 | with `antrian_lauk` empty and trays outstanding only the loop's own resumption at `now + 0.5` is added: stores, counters and accumulators are unchanged |
| AngkutStage.AngkutLoopKeeps | app.py:116-137 | the top of the transport loop (return, poll, or load and set off) keeps the run invariant |
| AngkutStage.AngkutDeliverKeeps | app.py:137-143 | the end of a trip (release, `busy_angkut` grows by the trip's draw, the stamped batch enters `antrian_nasi`) keeps the run invariant |
| NasiStage.RowCompletes | app.py:163-173 | the appended row copies the tray's id and lauk stamps and has `total_waktu = selesai - datang ≥ 0` |
| NasiStage.NasiPollWaits | app.py:148-152 | with `antrian_nasi` empty and trays outstanding only the loop's own resumption at `now + 0.5` is added: stores, counters and accumulators are unchanged |
| NasiStage.NasiLoopKeeps | app.py:146-160 | the top of the finish loop (return, poll, or take the oldest tray and serve it) keeps the run invariant |
| NasiStage.NasiRecordKeeps | app.py:160-175 | the end of a nasi service (release, `busy_nasi` grows by the draw, the row is appended, `completed` grows by one) keeps the run invariant |
| Simulation.StartEstablishes | app.py:183-187 | `run` starts exactly one generator, one transport loop and one finish loop, due now in that order, and the initial state satisfies the run invariant |
| Simulation.GenerateSpawnsNext | app.py:177-180 | each resumption of `generate` starts the next id's process and nothing else, so ids start in increasing order; after `TOTAL_OMPRENG` ids it returns |
| Simulation.GenerateKeeps | app.py:177-180 | a resumption of `generate` keeps the run invariant |
| Simulation.PopKeeps | app.py:189 | taking the earliest resumption keeps the invariant and never moves the clock backwards |
| Simulation.ResumeOmpreng | app.py:95-112 | resuming a tray's process where it is suspended keeps the run invariant and the clock |
| Simulation.ResumeAngkut | app.py:116-143 | resuming the transport loop where it is suspended keeps the run invariant and the clock |
| Simulation.ResumeNasi | app.py:146-175 | resuming the finish loop where it is suspended keeps the run invariant and the clock |
| Simulation.Dispatch | app.py:189 | one step of `env.run()` keeps the run invariant and never moves the clock backwards |
| Outcome.LaukServersBound | app.py:99-103 | at every moment no more trays hold a lauk server than `PETUGAS_LAUK`, and a tray waits only while all of them are taken |
| Outcome.OneServicePerLoop | app.py:185-187 | at every moment at most one transport service and one finish service are under way, exactly while the loop is in service |
| Outcome.DataInPutOrder | app.py:132-154 | at every moment the rows of `data` are those of the first trays put into `antrian_lauk`, in the order they were put |
| Outcome.AllDone | app.py:189-191 | when no resumption is left, `completed = len(data) = TOTAL_OMPRENG`, every id `0..TOTAL_OMPRENG-1` has exactly one row, rows are in put order and completion order, both stores are empty, and `busy_lauk`, `busy_nasi`, `busy_angkut` are the sums of the lauk draws, nasi draws and trip draws used |
| PiketOmprengModel.PiketOmprengDES.constructor | app.py:52-68 | the new object is in the state `__init__` leaves |
| PiketOmprengModel.PiketOmprengDES.StartProcesses | app.py:185-187 | the three `env.process` calls schedule the generator and both loops at the current time |
| PiketOmprengModel.PiketOmprengDES.Generate | app.py:177-180 | one resumption of `generate` updates the object as the step function does |
| PiketOmprengModel.PiketOmprengDES.LaukArrive | app.py:97-100 | records `datang` and requests a lauk server in place |
| PiketOmprengModel.PiketOmprengDES.LaukServe | app.py:101-103 | records `mulai_lauk`, draws the duration and schedules the end of service in place |
| PiketOmprengModel.PiketOmprengDES.LaukFinish | app.py:103-112 | releases the server, adds to `busy_lauk` and appends the tray to `antrian_lauk` in place |
| PiketOmprengModel.PiketOmprengDES.TakeBatch | app.py:130-132 | the counted loop of `get`s returns the first `m` trays of `antrian_lauk` in order and leaves the rest |
| PiketOmprengModel.PiketOmprengDES.PutBatch | app.py:141-143 | the loop over the batch appends every tray, stamped with the current time, to `antrian_nasi` in batch order |
| PiketOmprengModel.PiketOmprengDES.AngkutTop | app.py:118-137 | the top of the transport loop (return, poll, or load and set off) updates the object as its step function does |
| PiketOmprengModel.PiketOmprengDES.AngkutArrive | app.py:137-143 | the end of a trip (release, `busy_angkut`, deliver the stamped batch) updates the object as its step function does |
| PiketOmprengModel.PiketOmprengDES.NasiTop | app.py:148-160 | the top of the finish loop (return, poll, or take the oldest tray and serve it) updates the object as its step function does |
| PiketOmprengModel.PiketOmprengDES.NasiDone | app.py:160-175 | the end of a nasi service (release, `busy_nasi`, append the row, `completed += 1`) updates the object as its step function does |
| PiketOmprengModel.PiketOmprengDES.ProsesOmpreng | app.py:95-112 | resuming `proses_ompreng` where it is suspended updates the object as the model's resumption does |
| PiketOmprengModel.PiketOmprengDES.ProsesAngkut | app.py:116-143 | resuming `proses_angkut` where it is suspended updates the object as the model's resumption does |
| PiketOmprengModel.PiketOmprengDES.ProsesNasi | app.py:146-175 | resuming `proses_nasi` where it is suspended updates the object as the model's resumption does |
| PiketOmprengModel.PiketOmprengDES.Advance | app.py:189 | the environment removes its earliest resumption and moves the clock to it |
| PiketOmprengModel.PiketOmprengDES.Step | app.py:189 | one step of `env.run()` on the object equals `Dispatch` and keeps the run invariant |
| PiketOmprengModel.PiketOmprengDES.Simulate | app.py:189 | `env.run()` keeps the run invariant and reports whether no resumption is left |
| PiketOmprengModel.PiketOmprengDES.Run | app.py:183-191 | `run` keeps the invariant; once the environment is exhausted the outcome is complete (as in `AllDone`), and the summary is `analyze_results(data)`, succeeding exactly when `TOTAL_OMPRENG > 0` and counting `TOTAL_OMPRENG` rows |

## Left out

- The Streamlit UI, the plots, the CSV export and the display-only derived columns are presentation and I/O.
- `waktu_ke_jam`, `start_time` and the `jam_selesai` column are not modelled. They only render a time as a wall-clock `datetime` from a foreign library.
- The pseudo-random generator and its seeding are not modelled. The draws are four caller-supplied streams (lauk, load, trip, nasi).
  - Python draws all of them from one global stream, interleaved in execution order.
  - Here any sequences of in-range values are allowed, whatever generator produced them.
- `Config.Draws.Fits` accepts a duration between the two bounds in either order, as `random.uniform` does when min > max.
- The simpy library is modelled only as the program uses it:
  - `Resource` is a capacity counter with a first-come-first-served wait list.
  - `Store` is a FIFO sequence.
  - The environment is a time-ordered list in which same-instant resumptions run in scheduling order.
  - simpy's URGENT priority for process initialisation, which lets a freshly started process run before NORMAL events due at the same instant, is not modelled.
- Zero-delay suspensions that no other process can observe are collapsed into the step that makes them:
  - the `get` on `antrian_nasi` right after the emptiness check;
  - the uncontended `request` of the single transport and finish loops;
  - the `get`s of one batch;
  - the `put`s of one batch.

  The lauk `request` still resumes through a separate step, as in simpy.
  The collapse is not neutral in general. In simpy each of those steps lets the
  other loop run first, so the two loops can create their later timeouts in the
  other order. Two resumptions that then come due at the same instant run in the
  other order, and a loop can find its store empty and poll for another 0.5 s.
  With durations at or below the poll interval this shifts `mulai_nasi` and the
  end of the run by the poll interval. For example: 4 trays, 4 lauk servers,
  lauk draws 1.0, 1.0, 1.6, 1.6, load 4 and angkut = nasi = 0.25. The model
  then does not describe that run. The UI only offers durations of 10 s and more.
- PiketOmprengModel.PiketOmprengDES.Run: termination of `env.run()` is not proved. The loop runs for at most `fuel` resumptions, and `finished` reports whether the environment was exhausted. The outcome guarantees are stated for that case.
- PiketOmprengModel.PiketOmprengDES.Run: with durations at or below the 0.5 s poll interval, the run it describes can differ from the program's by the reordering described above.
- PiketOmprengModel.PiketOmprengDES.Run: requires `Config.Valid()`, which is stricter than the program:
  - every pool has at least one server (simpy refuses capacity 0);
  - no duration bound is negative;
  - `1 ≤ ANGKUT_MIN_LOAD ≤ ANGKUT_MAX_LOAD` (`random.randint` needs min ≤ max).

  A load of 0 would make the program set off with an empty batch, and that path is not modelled.
- On an empty `data` the program builds a data frame without columns, so `df["total_waktu"]` raises `KeyError` (app.py:196-198); `AnalyzeResults` fails with `MissingColumn("total_waktu")`.
- The program validates no configuration; `Config.Valid` is only a precondition of the model.
- The pandas statistics beyond max, mean and count, and the utilisation percentages, are display code over floating point.
- Time is `real`, with no floating-point rounding.
