# stocha — checkout simulation with impatient customers, in Dafny

This project models the core of `main.py` of stocha: a discrete-event simulation of a
store's checkout area (an M/M/C queue whose waiting customers may give up). A `Magasin`
(store) owns `Caisse` objects (registers) and one waiting line (`file`); `simule` runs
the event loop up to the horizon `temps_simulation`. At each step, the next event is
either the next arrival or the earliest completion among the registers. An arriving
`Client` (customer) goes to the first free register or joins the line. On a completion,
the register takes the customer at the tail of the line, provided the customer's
patience covers their wait. Otherwise that customer leaves, which costs the store the
lost margin plus a fixed rearrangement cost. The `Simulation` facade builds a store, runs
it once and computes the net revenue (`recette`).

The model has two layers:

- **Event semantics on values** (`temps.dfy`, `entites.dfy`, `selection.dfy`,
  `evenement.dfy`). Registers and the store are datatypes (`EtatCaisse`,
  `EtatMagasin`). One loop iteration is `Evenement.Step` and the whole loop is
  `Evenement.Run`. `math.inf` becomes `Instant.Inf`. Random draws come from a finite
  stream `tirages: seq<real>`, read in the order the loop asks for them: the first
  arrival gap; then, per arrival, the cart value, the patience, the next arrival gap
  and, on direct service, a service duration; and one service duration per customer
  served from the line.
- **The program's objects** (`simulation.dfy`). `Caisse`, `Magasin` and `Simulation`
  are classes whose methods update their fields in place. Each method is proved to
  compute the value-level function it corresponds to. The central guarantee is
  `Magasin.Simule`, whose new state is `Run(Depart(old state, tirages), …).magasin`.

`invariants.dfy` proves what the loop keeps true, given non-negative draws. A register
is free exactly when nothing is scheduled on it. The clock never goes back. Customers
are conserved, and every service is logged at a register. The rearrangement cost is
charged once per departure. The four occupancy accumulators stay non-negative.
`proprietes.dfy` states what single iterations do.

Behaviour is kept as the code has it, including:

- the line is served from its tail (`file.pop()`, main.py:337), so it is LIFO;
- a customer served on arrival gets the completion time as service time (main.py:325),
  so their recorded wait equals their service duration;
- a customer served from the line adds the service duration to the customers-in-store
  integral `esperance_client_magasin` (main.py:347);
- an arrival whose successor would fall at or past the horizon is counted but neither
  served nor queued (main.py:319-333);
- a completion is processed even when it falls at or past the horizon: the branch at
  main.py:335 has no horizon guard;
- the count of customers in the store `nb_clients` goes up on every arrival (main.py:313)
  but down only when a customer leaves the line (main.py:352), never for a customer served
  on arrival or dropped at the horizon, so `esperance_client_magasin` integrates arrivals
  minus dequeues rather than the customers actually present;
- on an empty line, the register to free is looked up again (main.py:354). The state
  has not changed since the first lookup, so this is the register that completed
  (`Proprietes.FinServiceLibere`).

## Model

| member | source | states |
|---|---|---|
| Entites.TempsAttente | main.py:160-167 | the wait is finite exactly when the service time is set, and then arrival + wait = service time |
| Selection.ProchaineCaisse | main.py:358-364 | the register returned has the smallest next completion time, and every register before it has a strictly later one (`min` keeps the first minimum) |
| Selection.PremiereLibre | main.py:366-375 | `None` exactly when no register is free; otherwise the lowest-numbered free register |
| Entites.Neuf | main.py:248-268 | definition of a store as created; its properties are in Invariants.DepartInv and Proprietes.HorizonNul |
| Evenement.Depart | main.py:289-292 | definition of the loop state before the first iteration; its properties are in Invariants.DepartInv |
| Evenement.Cumul | main.py:304-306 | definition of the guarded occupancy integrals; its properties are in Proprietes.AccumulateursHorizon and Invariants.AvanceInv |
| Evenement.Avance | main.py:304-308 | definition of accumulating and moving the clock; its properties are in Invariants.AvanceInv |
| Evenement.ServiceDirect | main.py:320-328 | definition of serving an arriving customer; its properties are in Proprietes.ServiceDirectAttente and Invariants.ArriveeInv |
| Evenement.Arrivee | main.py:311-333 | definition of the arrival branch; its properties are in Proprietes.ArriveeFile, Proprietes.ArriveeHorsHorizon, Proprietes.ServiceDirectAttente and Invariants.ArriveeInv |
| Evenement.ServiceFile | main.py:337-347 | definition of serving a customer from the line; its properties are in Proprietes.FinServiceLifo and Invariants.FinServiceInv |
| Evenement.Liberation | main.py:353-356 | definition of freeing a register; its properties are in Proprietes.FinServiceLibere |
| Evenement.FinService | main.py:335-356 | definition of the completion branch; its properties are in Proprietes.FinServiceLifo, Proprietes.FinServiceLibere and Invariants.FinServiceInv |
| Evenement.Step | main.py:294-356 | definition of one loop iteration; its properties are in Evenement.StepProgress, Invariants.StepInv and the Proprietes lemmas |
| Evenement.StepProgress | main.py:294-356 | one iteration keeps the loop state well formed and does one of: reaching the horizon, consuming draws, shortening the line, or freeing a busy register (so the loop terminates) |
| Evenement.Run | main.py:294-356 | the loop ends in a well-formed state where its guard is false, with the same number of registers |
| Invariants.CoutCumuleProduit | main.py:348-351 | charging the rearrangement cost once per departure amounts to departures × cost |
| Invariants.DepartInv | main.py:248-268 | a store as created, at time 0 with the first arrival drawn, satisfies the loop invariant |
| Invariants.AvanceInv | main.py:295-307 | moving the clock to the next event keeps the invariant, and the next event is not before the clock |
| Invariants.ArriveeInv | main.py:311-333 | an arrival keeps the invariant: free registers are those with nothing scheduled, customers are conserved, every service is logged, costs follow departures, accumulators are non-negative |
| Invariants.FinServiceInv | main.py:335-356 | a completion at the earliest-completing register keeps the invariant |
| Invariants.StepInv | main.py:294-356 | one iteration keeps the invariant and never moves the clock back |
| Invariants.RunInv | main.py:294-356 | the whole loop keeps the invariant and never moves the clock back |
| Proprietes.FinServiceLifo | main.py:335-352 | a completion with customers waiting takes the last customer of the line and stamps their service time with now. If their patience covers the wait, the completing register serves them until now + one draw and logs them; profit grows by the margin, time-in-line by the wait, the in-store integral by the service duration, and lost margin and costs are unchanged. Otherwise they leave: lost margin, one rearrangement cost and one departure are added, and registers, profit and time-in-line are unchanged |
| Proprietes.FinServiceLibere | main.py:353-356 | a completion with nobody waiting frees the completing register and keeps its log; the line, the customer count, every counter, profit, lost margin, costs, the two time accumulators and the draw position are unchanged |
| Proprietes.ArriveeHorsHorizon | main.py:311-333 | an arrival whose successor falls at or past the horizon is counted but neither served nor queued; no further arrival is scheduled, and served + lost + waiting becomes strictly less than the total |
| Proprietes.ServiceDirectAttente | main.py:318-328 | a customer served on arrival is logged with the completion time as service time, so their recorded wait equals the service duration; the register becomes busy until that time; the line is unchanged, the total and the served count grow by one and profit by the cart margin |
| Proprietes.ArriveeFile | main.py:311-331 | an arrival before the horizon that finds every register busy is appended at the tail of the line, the same end completions take from; registers are untouched, the total and the in-store count grow by one, the next arrival is scheduled and three draws are consumed |
| Proprietes.AccumulateursHorizon | main.py:304-347 | the occupancy integrals gain an interval term only for an event before the horizon. Past it, the line integral and time-in-store accumulator are unchanged. The in-store integral changes only when a customer is served from the line, and then by that service duration |
| Proprietes.HorizonNul | main.py:289-294 | with a horizon at or before 0 the store ends exactly as created: no customer, every counter zero |
| Proprietes.SimulationDepuisNeuf | main.py:270-356 | a run from a store as created ends with a sound balance sheet and a clock that never went back |
| Simulation.Caisse.constructor | main.py:184-193 | a new register carries its number, is free, has nothing scheduled and an empty log |
| Simulation.Caisse.ChangeOccupation | main.py:198-199 | sets the free flag and changes nothing else |
| Simulation.Caisse.ChangeProchainService | main.py:201-202 | sets the next completion time and changes nothing else |
| Simulation.Caisse.TraiterNouveauClient | main.py:204-205 | appends the customer to the log and changes nothing else |
| Simulation.Magasin.constructor | main.py:248-268 | a new store has `nbre_caisses` distinct registers numbered from 0, all free and idle, an empty line and every counter zero |
| Simulation.Magasin.DonneProchaineCaisse | main.py:358-364 | the index of the register with the earliest completion, first index on ties |
| Simulation.Magasin.DonneCaisseLibre | main.py:366-375 | scans the registers in order and returns the first free one, or `None` when all are busy |
| Simulation.Magasin.DonneEsperances | main.py:377-384 | the four accumulators, in the order the report reads them |
| Simulation.Magasin.ServirDirectement | main.py:318-328 | a free register takes the arriving customer: it becomes busy until the completion time and logs the customer stamped with that time; profit and time-in-store grow |
| Simulation.Magasin.ServirDepuisFile | main.py:340-347 | the completing register takes a customer from the line: its next completion is set and the customer logged; profit, time-in-line and the customers-in-store integral grow |
| Simulation.Magasin.LibererCaisse | main.py:353-356 | the register becomes free with nothing scheduled; its log is unchanged |
| Simulation.Magasin.TraiteArrivee | main.py:311-333 | the arrival branch of the loop computes `Evenement.Arrivee` on the store and loop locals |
| Simulation.Magasin.TraiteFinService | main.py:335-356 | the completion branch of the loop computes `Evenement.FinService` |
| Simulation.Magasin.Accumule | main.py:304-306 | the occupancy integrals grow by the interval up to the next event only when it is before the horizon |
| Simulation.Magasin.Etape | main.py:295-356 | one iteration of the loop computes `Evenement.Step` |
| Simulation.Magasin.Simule | main.py:270-356 | the new store state is `Run` from the old state and the draws. From a store as created, with non-negative draws, the balance sheet is sound: free exactly when idle, served + lost + waiting ≤ total, every service logged, cost charged per departure, accumulators non-negative |
| Simulation.Recette | main.py:90-91 | net revenue plus rearrangement costs plus registers × cost × horizon is the profit |
| Simulation.RecetteDe | main.py:90-91 | with a sound balance sheet, net revenue = profit − departures × rearrangement cost − registers × cost × horizon, and it never exceeds profit when costs and horizon are non-negative |
| Simulation.RecetteNette | main.py:81-91 | the same holds for the store a run from a fresh store produces |
| Simulation.Simulation.constructor | main.py:43-79 | stores every parameter and creates a fresh store with `nbre_serveurs` registers; the revenue starts at 0 |
| Simulation.Simulation.SimulationMagasin | main.py:81-91 | runs the store once (new state = `Run`) and sets the revenue by the formula. From a fresh store with non-negative draws, the balance sheet is sound and the revenue is as `RecetteDe` describes |

## Left out

- The `random` module. Exponential and uniform draws are an input stream `tirages`. The rates `variable_arrivee`, `variable_temps_service`, `variable_attente_max` and `cadi_max` only shape those draws, so `simule` does not take them. The invariants assume the draws are non-negative, as exponential draws with a positive rate and `uniform(0, max)` with `max >= 0` are.
- Simulation.Magasin.Simule: the loop also stops when fewer than four draws remain, the most one iteration uses. A run on a finite stream may therefore end before the horizon, which the unbounded random stream never does.
- Floating point is modelled as exact reals; rounding, NaN and overflow are not modelled. `math.inf` is `Instant.Inf`, and no arithmetic is ever done on it.
- The `Simulation` constructor validates no parameter (main.py:43-79), and neither does the model.
- A store with no register: `min` raises `ValueError` on an empty list at the first iteration. The model requires at least one register instead of modelling the exception.
- Object identity of customers. A `Client` is a value. Its service time is set before it is logged, which gives the same final log as Python's later mutation of the shared object.
- Registers are identified by their index (equal to `num_caisse`) rather than by object reference. `donne_caisse_libre` returns an `Option` of an index.
- `Caisse.est_libre` is the field read `EstLibre` and carries no contract of its own.
- `Magasin.clients` is never used by the code and is not modelled.
- Text reports: `donne_info_simulation`, `Client.donne_arrivee`, `Caisse.donne_info`, `donne_info_magasin`.
- The `Client` constructor's two draws are read from the stream inside `TraiteArrivee`, not by a separate constructor.
- `SimulationOriginale` (extension.py is not part of this model), `load_config`, the batch drivers `simulation_masse`, `simulation_originale_masse`, `simulation_originale` and their CSV output, and the `__main__` entry point.
