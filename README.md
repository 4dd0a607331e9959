# Aerocode production rules in Dafny

Aerocode is a console system for managing aircraft production. It covers aircraft, their parts, their production stages and their tests, and the employees who work on them. This project models its rules engine and proves what those rules promise. The repository holds two versions of the engine, and each is modelled on its own terms:

- **The standalone manager** (`sistema-aerocode.ts`), module `ArquivoUnico`. `GerenciadorAeronaves` keeps five id-keyed registries: aircraft, parts, stages, tests and employees.
  - Each registry is a JavaScript `Map`, modelled by `MapaOrdenado.Mapa`: keys in insertion order plus a dictionary.
  - Inserts refuse duplicate keys.
  - Deleting a part, stage, test or aircraft is refused while something still refers to it. The blocker list has one line per referring aircraft.
  - Deleting an employee is a soft delete.
  - Associations between an aircraft and a part, stage or test are idempotent.
  - Every delete first checks the rank hierarchy.
- **The model classes** of `src/models`.
  - `ModeloEtapa`: a stage, a PENDENTE → ANDAMENTO → CONCLUIDA state machine with idempotent employee association and employee resolution on load.
  - `ModeloAeronave`: an aircraft whose stages stay sorted by `ordem`, with the predecessor-completed rule for finishing a stage.
  - `ModeloFuncionario`: an employee with the rank table, authentication and soft delete.
  - `ModeloPeca`: a part and the insert-if-absent registry of all parts, with an upsert-style load.
- **The session logic** of `src/sistema/SistemaAerocode.ts`, without its prompts (`SistemaAerocode`). It covers:
  - the permission check against the logged-in user;
  - next-code generation;
  - selection of an aircraft by list number or by code;
  - the five default stages of a new aircraft;
  - starting and finishing a stage, including the automatic start;
  - assigning an employee to a stage;
  - at most one test per kind;
  - registering employees, including the default administrator.
- **The parts catalogue** of `src/services/CatalogoPecas.ts` (`CatalogoPecas`). These are pure queries over a fixed table of 36 parts.
  - The class is modelled as the value `Catalogo(pecas)`, with its static methods as member functions.
  - The queries are proved for any table. `CATALOGO` is the class with its own fixed table.

Shared modules:

- `Enums`: the enumerations, the rank table and the stage transitions.
- `Erros`: the error kinds, without message text.
- `Texto`: the JavaScript string operations the source relies on: `trim`, `toLowerCase`/`toUpperCase`, `includes`, `parseInt`, `toString`, `padStart` and removing non-digits.
- `Comum`: `Option` and small sequence helpers.

Some entities change in place in the source: employees, parts, stages, aircraft, the manager, the registry and the session. They are classes whose methods state their whole new state. Values that never change after they are built (catalogue entries, saved records, `src/models` tests) are datatypes. Console answers, clock readings and generated serial numbers are parameters.

## Model

| member | source | states |
|---|---|---|
| Enums.Hierarquia | src/models/Funcionario.ts:37-41 | The rank table: OPERADOR is 1, ENGENHEIRO 2, ADMINISTRADOR 3; only ADMINISTRADOR is 3 and only OPERADOR is 1. |
| Enums.Satisfaz | src/models/Funcionario.ts:36-43 | A rank satisfies a requirement iff it is administrator, the requirement is operator, or the two are equal. This is the rank comparison written out case by case. |
| Enums.SatisfazMonotono | sistema-aerocode.ts:87-94 | Monotonicity: a rank at least as high satisfies every requirement a lower one satisfies. |
| Enums.SatisfazOrdemTotal | sistema-aerocode.ts:87-94 | The permission relation is reflexive, transitive and total. |
| Enums.Posicao | src/enums/index.ts:34-38 | The position of a stage status in PENDENTE < ANDAMENTO < CONCLUIDA: 0 exactly for PENDENTE, 2 exactly for CONCLUIDA. |
| Enums.Iniciado | src/models/Etapa.ts:14-20 | The effect of starting on a status: it changes iff the status is PENDENTE, and then moves one step forward. |
| Enums.Finalizado | src/models/Etapa.ts:22-28 | The effect of finishing on a status: it changes iff the status is ANDAMENTO, and then moves one step forward. |
| Enums.SemRetrocesso | src/models/Etapa.ts:14-28 | No sequence of start/finish calls lowers a stage's status, and n calls raise it by at most n steps. |
| Enums.ConcluidaTerminal | src/models/Etapa.ts:14-28 | Once CONCLUIDA, no sequence of start/finish calls changes the status. |
| ArquivoUnico.Funcionario.constructor | sistema-aerocode.ts:72-81 | Every field takes the given value; `ativo` defaults to true. |
| ArquivoUnico.Funcionario.TemPermissao | sistema-aerocode.ts:87-94 | True iff the employee is administrator, the requirement is operator, or the levels are equal. This is the rank comparison. |
| ArquivoUnico.Funcionario.Desativar | sistema-aerocode.ts:96-99 | Afterwards the employee is inactive, and nothing but `ativo` may change. |
| ArquivoUnico.Funcionario.Reativar | sistema-aerocode.ts:101-104 | Afterwards the employee is active, and nothing but `ativo` may change. |
| ArquivoUnico.Peca.constructor | sistema-aerocode.ts:116-122 | Every field takes the given value. |
| ArquivoUnico.Peca.AtualizarStatus | sistema-aerocode.ts:124-127 | Any status may follow any status; only `status` changes. |
| ArquivoUnico.Teste.constructor | sistema-aerocode.ts:139-144 | Every field takes the given value. |
| ArquivoUnico.Etapa.constructor | sistema-aerocode.ts:158-163 | Every field takes the given value, with no employee associated. |
| ArquivoUnico.Etapa.Iniciar | sistema-aerocode.ts:165-172 | The status moves from PENDENTE to ANDAMENTO and otherwise stays; only `status` changes. |
| ArquivoUnico.Etapa.Finalizar | sistema-aerocode.ts:174-181 | The status moves from ANDAMENTO to CONCLUIDA and otherwise stays; only `status` changes. |
| ArquivoUnico.Etapa.AssociarFuncionario | sistema-aerocode.ts:183-190 | The employee object is appended unless already listed. Repeating the call changes nothing more, and a list without repeats keeps none. |
| ArquivoUnico.Etapa.DesassociarFuncionario | sistema-aerocode.ts:192-200 | The first listing of the employee object is removed if there is one, and the rest keep their order. |
| ArquivoUnico.Aeronave.constructor | sistema-aerocode.ts:220-226 | Every field takes the given value; there are no parts, stages or tests. |
| ArquivoUnico.OcorrenciasAnexar | sistema-aerocode.ts:321-332 | Appending at most one blocker line adds only that line's occurrence of an aircraft code. |
| ArquivoUnico.DependenciasContagem | sistema-aerocode.ts:321-358 | Over distinct aircraft keys, the blocker list names an aircraft exactly once if it holds the id, and never otherwise. |
| ArquivoUnico.DependenciasForma | sistema-aerocode.ts:321-358 | Every blocker line names a scanned aircraft that holds the id, together with that aircraft's model. |
| ArquivoUnico.DependenciasVazias | sistema-aerocode.ts:321-358 | The blocker list is empty iff no scanned aircraft holds the id. |
| ArquivoUnico.UmaAeronave | sistema-aerocode.ts:321-332 | The scan over a single aircraft yields one line when it holds the id and none otherwise. |
| ArquivoUnico.GerenciadorAeronaves.constructor | sistema-aerocode.ts:310-315 | All five registries start empty and well formed. |
| ArquivoUnico.GerenciadorAeronaves.VerificarDependencias | sistema-aerocode.ts:321-358 | The loop builds exactly the blocker list of the aircraft in insertion order, for parts, stages or tests. Its count and shape follow from the lemmas above. |
| ArquivoUnico.GerenciadorAeronaves.VerificarDependenciasFuncionario | sistema-aerocode.ts:360-371 | The loop builds exactly the list of stages, in insertion order, that still list the employee. |
| ArquivoUnico.GerenciadorAeronaves.VerificarDependenciasAeronave | sistema-aerocode.ts:373-392 | Empty iff the aircraft is unknown or has no parts, stages or tests. Otherwise there is exactly one line for each collection that is not empty and no other line: the count equals the number of non-empty collections, the parts line (if any) comes first, the stages line right after it, and the tests line (if any) last. |
| MapaOrdenado.SemElemento | sistema-aerocode.ts:416 | The key list after `Map.delete`: an absent key leaves the list as it is; in a list without repeats, the key's one occurrence goes and everything before and after it keeps its order. |
| MapaOrdenado.Mapa.Remover | sistema-aerocode.ts:416 | `Map.delete`: the key and its value go, the map stays well formed, and the other keys keep their insertion order (the key list loses exactly the one occurrence of the key). |
| ArquivoUnico.GerenciadorAeronaves.DeletarPeca | sistema-aerocode.ts:398-418 | Checks ENGENHEIRO, then existence, then the blocker list. Any failure leaves the manager unchanged; success removes that key from the parts registry only. |
| ArquivoUnico.GerenciadorAeronaves.DeletarEtapa | sistema-aerocode.ts:420-440 | The same order of checks for stages; success removes only that stage's key. |
| ArquivoUnico.GerenciadorAeronaves.DeletarTeste | sistema-aerocode.ts:442-462 | The same order of checks for tests; success removes only that test's key. |
| ArquivoUnico.GerenciadorAeronaves.DeletarFuncionario | sistema-aerocode.ts:464-482 | Needs ADMINISTRADOR and a known id. It is never blocked: the employee becomes inactive, stays retrievable, and the stages listing the employee come back only as a warning. |
| ArquivoUnico.GerenciadorAeronaves.DeletarAeronave | sistema-aerocode.ts:484-504 | Needs ADMINISTRADOR. It is blocked iff the aircraft has parts, stages or tests, and the blocker list then ends with the hint line. Success removes only that key. |
| ArquivoUnico.GerenciadorAeronaves.AdicionarAeronave | sistema-aerocode.ts:510-516 | A duplicate code fails and changes nothing; otherwise the aircraft is added at the end of the insertion order. |
| ArquivoUnico.GerenciadorAeronaves.AdicionarPeca | sistema-aerocode.ts:518-524 | A duplicate id fails and changes nothing; otherwise the part is added. |
| ArquivoUnico.GerenciadorAeronaves.AdicionarEtapa | sistema-aerocode.ts:526-532 | A duplicate id fails and changes nothing; otherwise the stage is added. |
| ArquivoUnico.GerenciadorAeronaves.AdicionarTeste | sistema-aerocode.ts:534-540 | A duplicate id fails and changes nothing; otherwise the test is added. |
| ArquivoUnico.GerenciadorAeronaves.AdicionarFuncionario | sistema-aerocode.ts:542-548 | A duplicate id fails and changes nothing; otherwise the employee is added. |
| ArquivoUnico.GerenciadorAeronaves.BuscarAeronave | sistema-aerocode.ts:554-556 | Found iff the code is registered, and what is found is the registered aircraft object itself, which carries that code. |
| ArquivoUnico.GerenciadorAeronaves.BuscarPeca | sistema-aerocode.ts:558-560 | Found iff the id is registered, and what is found is the registered part object itself, which carries that id. |
| ArquivoUnico.GerenciadorAeronaves.BuscarEtapa | sistema-aerocode.ts:562-564 | Found iff the id is registered, and what is found is the registered stage object itself, which carries that id. |
| ArquivoUnico.GerenciadorAeronaves.BuscarTeste | sistema-aerocode.ts:566-568 | Found iff the id is registered, and what is found is the registered test object itself, which carries that id. |
| ArquivoUnico.GerenciadorAeronaves.BuscarFuncionario | sistema-aerocode.ts:570-572 | Found iff the id is registered, and what is found is the registered employee object itself. |
| ArquivoUnico.GerenciadorAeronaves.ListarAeronaves | sistema-aerocode.ts:574-576 | Position i holds the aircraft registered under the i-th key in insertion order, and there is one per key. |
| ArquivoUnico.GerenciadorAeronaves.ListarPecas | sistema-aerocode.ts:578-580 | Position i holds the part registered under the i-th key in insertion order, and there is one per key. |
| ArquivoUnico.GerenciadorAeronaves.ListarEtapas | sistema-aerocode.ts:582-584 | Position i holds the stage registered under the i-th key in insertion order, and there is one per key. |
| ArquivoUnico.GerenciadorAeronaves.ListarTestes | sistema-aerocode.ts:586-588 | Position i holds the test registered under the i-th key in insertion order, and there is one per key. |
| ArquivoUnico.GerenciadorAeronaves.ListarFuncionarios | sistema-aerocode.ts:590-592 | Position i holds the employee registered under the i-th key in insertion order, and there is one per key. |
| ArquivoUnico.GerenciadorAeronaves.ListarFuncionariosAtivos | sistema-aerocode.ts:594-596 | Exactly the registered employees that are active. |
| ArquivoUnico.GerenciadorAeronaves.AssociarPecaAeronave | sistema-aerocode.ts:602-613 | Fails, changing nothing, when the aircraft or the part is unknown. Otherwise the part is appended unless already there. The aircraft then holds it, and a part list without repeats stays without repeats. |
| ArquivoUnico.GerenciadorAeronaves.AssociarEtapaAeronave | sistema-aerocode.ts:615-626 | The same as AssociarPecaAeronave, for stages. |
| ArquivoUnico.GerenciadorAeronaves.AssociarTesteAeronave | sistema-aerocode.ts:628-639 | The same as AssociarPecaAeronave, for tests. |
| ArquivoUnico.SoAtivos | sistema-aerocode.ts:594-596 | Keeps exactly the active employees of a list, and no more of them than the list holds. |
| ArquivoUnico.CadastrarPessoal | sistema-aerocode.ts:651-658 | A fresh manager holding the administrator F001 and the engineer F002, with no aircraft and no parts; the engineer returned has rank ENGENHEIRO. |
| ArquivoUnico.CadastrarPessoalEAeronave | sistema-aerocode.ts:651-662 | Adds the aircraft EMB195 (model E195-E2, no parts) as the only aircraft, with the parts registry still empty. |
| ArquivoUnico.CadastrarPecas | sistema-aerocode.ts:665-668 | Registers P001 and P002 in an empty parts registry, leaving the aircraft untouched. |
| ArquivoUnico.MontarCenario | sistema-aerocode.ts:651-671 | The demonstration set-up: EMB195 holds P001. P001 then has exactly one blocker, EMB195, and P002 has none. |
| ArquivoUnico.DependenciasDoCenario | sistema-aerocode.ts:665-671 | With EMB195 holding only P001, the blocker lists of P001 and P002 are one line and empty. |
| ArquivoUnico.Demonstracao | sistema-aerocode.ts:675-688 | The engineer's delete of P001 fails, naming EMB195; the delete of P002 succeeds. |
| ModeloFuncionario.Ler | src/models/Funcionario.ts:68-81 | Loading a record keeps every field (code, name, phone, address, user, password, level), and `ativo` is true when the record lacks it or says so. |
| ModeloFuncionario.Gravar | src/models/Funcionario.ts:55-66 | Saving writes `ativo` explicitly, and reading the record back gives the same eight fields. |
| ModeloFuncionario.Funcionario.constructor | src/models/Funcionario.ts:13-30 | The seven given fields are stored, and the new employee is active. |
| ModeloFuncionario.Funcionario.TemPermissao | src/models/Funcionario.ts:36-43 | True iff the employee's rank is at least the required one; stated both as the rank comparison and case by case. |
| ModeloFuncionario.Funcionario.Desativar | src/models/Funcionario.ts:45-48 | Only `ativo` changes, to false. |
| ModeloFuncionario.Funcionario.Reativar | src/models/Funcionario.ts:50-53 | Only `ativo` changes, to true. |
| ModeloFuncionario.Funcionario.Salvar | src/models/Funcionario.ts:55-66 | The saved record reads back as the employee's eight fields. |
| ModeloFuncionario.Funcionario.Carregar | src/models/Funcionario.ts:68-81 | A new employee with the record's fields, active when the record lacks `ativo`. |
| ModeloFuncionario.SalvarECarregar | src/models/Funcionario.ts:55-81 | Loading a saved employee reproduces all eight fields. |
| ModeloEtapa.Codigos | src/models/Etapa.ts:49 | The codes of a list of employees, position by position. |
| ModeloEtapa.Encontrar | src/models/Etapa.ts:59 | None iff no employee has the code; otherwise a listed employee with the code. |
| ModeloEtapa.ResolverMantemResolviveis | src/models/Etapa.ts:57-64 | Loading keeps, in saved order, exactly the saved codes that name a known employee, and only known employees. |
| ModeloEtapa.ResolverCodigos | src/models/Etapa.ts:43-64 | If every saved employee is the first with its code among the known ones, loading the saved codes gives back the same list. |
| ModeloEtapa.Etapa.constructor | src/models/Etapa.ts:7-12 | An absent status defaults to PENDENTE; no employee is associated. |
| ModeloEtapa.Etapa.Iniciar | src/models/Etapa.ts:14-20 | Returns true iff the stage was PENDENTE. The status then moves to ANDAMENTO, and otherwise stays. |
| ModeloEtapa.Etapa.Finalizar | src/models/Etapa.ts:22-28 | Returns true iff the stage was ANDAMENTO. The status then moves to CONCLUIDA, and otherwise stays. |
| ModeloEtapa.Etapa.AssociarFuncionario | src/models/Etapa.ts:30-37 | Returns true and appends iff no associated employee has the same code. The codes stay pairwise distinct, and the code is associated afterwards. |
| ModeloEtapa.Etapa.ListarFuncionarios | src/models/Etapa.ts:39-41 | The associated employees, with the same codes in the same order. The result is a value, so changing it cannot change the stage. |
| ModeloEtapa.Etapa.Salvar | src/models/Etapa.ts:43-51 | The record holds the stage's fields and its employees' codes in order. |
| ModeloEtapa.Etapa.Carregar | src/models/Etapa.ts:53-67 | A new stage with the record's fields (status PENDENTE when absent). Its employees are the saved codes resolved against the known employees, with unknown codes dropped. |
| ModeloPeca.Lido | src/models/Peca.ts:116-138 | A complete record loads with non-empty name, supplier and code. A missing date becomes the current time. |
| ModeloPeca.Gravado | src/models/Peca.ts:92-106 | The saved record passes the load guard iff name, supplier and code are non-empty, and it then loads back as the same part. |
| ModeloPeca.Peca.constructor | src/models/Peca.ts:8-28 | An empty code is replaced by the generated one. The part is registered only if its code is new, so the first registrant wins. |
| ModeloPeca.Peca.AtualizarStatus | src/models/Peca.ts:41-48 | Any status is accepted, and only `status` changes. |
| ModeloPeca.Peca.Salvar | src/models/Peca.ts:92-106 | The saved record, when complete, loads back as the part's fields. |
| ModeloPeca.ComStatus | src/models/Peca.ts:71-73 | Keeps exactly the parts of a list with the status. |
| ModeloPeca.ComTipo | src/models/Peca.ts:75-77 | Keeps exactly the parts of a list with the type. |
| ModeloPeca.RegistroPecas.constructor | src/models/Peca.ts:6 | The registry starts empty. |
| ModeloPeca.RegistroPecas.ListarTodas | src/models/Peca.ts:67-69 | Position i holds the part registered under the i-th code in registration order, and there is one per code. |
| ModeloPeca.RegistroPecas.ListarPorStatus | src/models/Peca.ts:71-73 | Exactly the registered parts with that status. |
| ModeloPeca.RegistroPecas.ListarPorTipo | src/models/Peca.ts:75-77 | Exactly the registered parts with that type. |
| ModeloPeca.RegistroPecas.ObterPorCodigo | src/models/Peca.ts:79-81 | Found iff the code is registered, and it is the registered part. |
| ModeloPeca.RegistroPecas.Contar | src/models/Peca.ts:83-85 | The number of registered codes. |
| ModeloPeca.RegistroPecas.Limpar | src/models/Peca.ts:87-89 | Afterwards the registry is empty and the count is 0. |
| ModeloPeca.RegistroPecas.Carregar | src/models/Peca.ts:113-144 | An unparsable record, or one missing name, type, supplier, status or code, fails and changes nothing: neither the registry nor the part filed under its code. A registered code updates that part in place and the count stays the same. A new code registers a new part and the count grows by one. |
| ModeloPeca.ValoresRegistrados | src/models/Peca.ts:67-69 | The listed parts are exactly the registered ones, each under its own code. |
| ModeloAeronave.Inserir | src/models/Aeronave.ts:49-52 | Inserting a stage adds it to the multiset of stages, and a sorted list stays sorted by `ordem`. |
| ModeloAeronave.Ordenar | src/models/Aeronave.ts:51 | The result is sorted by `ordem` and is a permutation of the input. |
| ModeloAeronave.OrdenarOrdenado | src/models/Aeronave.ts:51 | Sorting an already sorted list changes nothing. |
| ModeloAeronave.OrdenarAposAnexar | src/models/Aeronave.ts:49-52 | Appending to a sorted list and then sorting is the same as inserting the stage after every stage of equal or lower `ordem`. |
| ModeloAeronave.InserirNoFim | src/models/Aeronave.ts:49-52 | A stage whose `ordem` is at least the last one's goes to the end. |
| ModeloAeronave.UltimoNoFim | src/models/Aeronave.ts:49-52 | Re-inserting the last stage of a sorted list rebuilds the list. |
| ModeloAeronave.OrdensInserir | src/models/Aeronave.ts:49-52 | Inserting adds exactly the new stage's `ordem` to the multiset of orders. |
| ModeloAeronave.OrdensOrdenar | src/models/Aeronave.ts:179-184 | Sorting keeps the multiset of orders. |
| ModeloAeronave.PrimeiroPorNome | src/models/Aeronave.ts:55-56 | The position of the first stage with the name, or -1 iff no stage has it. |
| ModeloAeronave.Estados | src/models/Aeronave.ts:54-60 | The statuses of the stages, position by position. |
| ModeloAeronave.FinalizarMantemPrefixo | src/models/Aeronave.ts:54-60 | Completing a stage the rule allows keeps the completed stages a prefix of the list. |
| ModeloAeronave.IniciarMantemPrefixo | src/models/Etapa.ts:14-20 | Starting any stage keeps the completed stages a prefix of the list. |
| ModeloAeronave.Aeronave.constructor | src/models/Aeronave.ts:12-29 | No parts, stages or tests. The defaults are an empty client, manufacturer "Aerocode", the current year, and the generated serial number when none or an empty one is given. |
| ModeloAeronave.Aeronave.AdicionarPeca | src/models/Aeronave.ts:39-41 | Appends at the end with no check for repeats. |
| ModeloAeronave.Aeronave.GetPecas | src/models/Aeronave.ts:43-45 | A copy equal to the aircraft's parts. |
| ModeloAeronave.Aeronave.AdicionarEtapa | src/models/Aeronave.ts:49-52 | The stages stay sorted by `ordem` and become the old stages plus the new one. The new stage goes after every stage of equal `ordem`. |
| ModeloAeronave.Aeronave.PodeFinalizarEtapa | src/models/Aeronave.ts:54-60 | False when no stage has the name. If the first match is the first stage, true iff the given stage is ANDAMENTO. Otherwise the stage before the match must also be CONCLUIDA. |
| ModeloAeronave.Aeronave.GetEtapas | src/models/Aeronave.ts:62-64 | A copy equal to the aircraft's stages. |
| ModeloAeronave.Aeronave.AdicionarTeste | src/models/Aeronave.ts:68-70 | Appends at the end with no check for repeats. |
| ModeloAeronave.Aeronave.GetTestes | src/models/Aeronave.ts:72-74 | A copy equal to the aircraft's tests. |
| ModeloAeronave.Aeronave.DefinirDataEntrega | src/models/Aeronave.ts:78-80 | Only the delivery date changes. |
| ModeloAeronave.Aeronave.Preencher | src/models/Aeronave.ts:173-190 | Fills the parts, stages and tests of an aircraft being loaded. |
| ModeloAeronave.Aeronave.Carregar | src/models/Aeronave.ts:157-193 | A part that fails to load fails the whole load. Otherwise the aircraft gets the record's code, model, type, capacity, range, observations and delivery date; the defaults of an absent client (empty), a falsy manufacturer ("Aerocode"), a falsy year (the current one) and a missing or empty serial number (the generated one); the parts loaded through the registry; and the tests. Its stages are sorted by `ordem` and are a permutation of the stages rebuilt one per saved record, each with that record's fields, status default and resolved employees. |
| ModeloAeronave.RegistradasAnexar | src/models/Aeronave.ts:173-177 | Loading one more part keeps the loaded parts matched, position by position, to the registered parts of their records. |
| ModeloAeronave.Aeronave.Montar | src/models/Aeronave.ts:158-171 | A fresh aircraft with the record's scalar fields and the `||` defaults (manufacturer "Aerocode", current year), holding the given parts and stages and the record's tests. |
| ModeloAeronave.CarregarOrdenadas | src/models/Aeronave.ts:179-184 | The rebuilt stages, sorted by `ordem`: sorted, a permutation of the stages rebuilt from the records in order, with the saved multiset of orders. |
| ModeloAeronave.CarregarPecas | src/models/Aeronave.ts:173-177 | Fails iff some part record cannot be loaded. Otherwise each loaded part is the registered part of its record's code. |
| ModeloAeronave.CarregarEtapas | src/models/Aeronave.ts:179-184 | One new stage per saved stage, in saved order. Stage i has record i's name, deadline and order, its status or PENDENTE when absent, and its saved employee codes resolved against the known employees. |
| SistemaAerocode.Definidos | src/sistema/SistemaAerocode.ts:64-66 | Keeps exactly the values that are numbers. |
| SistemaAerocode.Maximo | src/sistema/SistemaAerocode.ts:68 | An element of the list that no element exceeds. |
| SistemaAerocode.ProximoNumero | src/sistema/SistemaAerocode.ts:62-81 | None iff no value is a number. Otherwise the result is above every number and one above some number, i.e. max + 1. |
| SistemaAerocode.Lidos | src/sistema/SistemaAerocode.ts:64-65 | Each code read with `parseInt`, position by position. |
| SistemaAerocode.ProximoCodigoFuncionario | src/sistema/SistemaAerocode.ts:62-69 | "1" when no code is numeric. Otherwise the result reads back as a number above every numeric code and one above some code. The result is exactly the `toString` text of the number it reads back as. |
| SistemaAerocode.NumeroDoCodigo | src/sistema/SistemaAerocode.ts:73-75 | The number a code's digits carry, never negative. |
| SistemaAerocode.NumerosDosCodigos | src/sistema/SistemaAerocode.ts:72-77 | Each aircraft code's number, position by position, none negative. |
| SistemaAerocode.ProximoNumeroPositivo | src/sistema/SistemaAerocode.ts:70-81 | Over values that are never negative, the next number is at least 1. |
| SistemaAerocode.NumeroDoCodigoAer | src/sistema/SistemaAerocode.ts:79-80 | "AER" followed by m padded with zeros to three digits carries exactly the number m. |
| SistemaAerocode.Aer001 | src/sistema/SistemaAerocode.ts:71 | Padding 1 gives "AER001". |
| SistemaAerocode.ProximoCodigoAeronave | src/sistema/SistemaAerocode.ts:70-81 | It is "AER" followed by exactly the decimal text of its number, a positive integer, left-padded with zeros to three digits. It is "AER001" when no code carries a number. Otherwise its number is above every code's number and one above some code's number. |
| SistemaAerocode.PrimeiroComCodigo | src/sistema/SistemaAerocode.ts:120-122 | The first aircraft whose upper-cased code matches, or -1 iff none does. |
| SistemaAerocode.ComCodigo | src/sistema/SistemaAerocode.ts:120-122 | The first aircraft whose upper-cased code matches, or none iff none does. |
| SistemaAerocode.PrimeiroAutenticado | src/sistema/SistemaAerocode.ts:131-146 | The first employee accepting the credentials, or -1 iff none does. |
| SistemaAerocode.IndiceEscolhido | src/sistema/SistemaAerocode.ts:113-118 | An answer that `parseInt` reads as n, for 1 ≤ n ≤ length, chooses index n - 1. Any chosen index is within the list and is one below what the answer reads as; every other answer chooses nothing. |
| SistemaAerocode.IndiceDoNumero | src/sistema/SistemaAerocode.ts:113-118 | Typing k, for 1 ≤ k ≤ length, chooses index k - 1, and any answer choosing k - 1 reads as k. |
| SistemaAerocode.AnexarUsuarioNovo | src/sistema/SistemaAerocode.ts:638-654 | Appending an employee with a new user name keeps user names distinct. |
| SistemaAerocode.LerNivel | src/sistema/SistemaAerocode.ts:643-652 | Accepts an answer iff its upper case is the name of a rank (ADMINISTRADOR, ENGENHEIRO or OPERADOR), and then gives that rank; anything else is refused. |
| SistemaAerocode.LerTipoTeste | src/sistema/SistemaAerocode.ts:871-880 | Accepts an answer iff its upper case is the name of a test kind, and then gives that kind; anything else is refused. |
| SistemaAerocode.LerResultado | src/sistema/SistemaAerocode.ts:891-899 | Accepts an answer iff its upper case is the name of a test result, and then gives that result; anything else is refused. |
| SistemaAerocode.LerNomes | src/sistema/SistemaAerocode.ts:871-899 | Each member's own name reads back as that member. |
| SistemaAerocode.PadraoNomesDistintos | src/sistema/SistemaAerocode.ts:221-227 | The five default stages have distinct names, so the finishing rule finds each at its own position. |
| SistemaAerocode.NomeDistintoNaPosicao | src/models/Aeronave.ts:55-56 | With distinct names, the first stage with a stage's name is that stage. |
| SistemaAerocode.PodeFinalizarComEstadoAtual | src/models/Aeronave.ts:54-60 | The finishing rule evaluated with the stage's own status is the aircraft's rule. |
| SistemaAerocode.Sistema.constructor | src/sistema/SistemaAerocode.ts:27-36 | Starts with the loaded data and nobody logged in. The default administrator is appended iff no employee is "admin". |
| SistemaAerocode.Sistema.CriarUsuarioAdminPadrao | src/sistema/SistemaAerocode.ts:37-53 | Adds the default administrator iff no employee has user name "admin", and leaves user names distinct. |
| SistemaAerocode.Sistema.AnexarFuncionario | src/sistema/SistemaAerocode.ts:638-654 | Appends an employee whose user name is free, keeping user names distinct. |
| SistemaAerocode.Sistema.VerificarPermissao | src/sistema/SistemaAerocode.ts:147-155 | False when nobody is logged in; otherwise the rank comparison on the logged-in user's level. |
| SistemaAerocode.Sistema.Login | src/sistema/SistemaAerocode.ts:131-146 | Succeeds iff some employee accepts the credentials; the first one becomes the logged-in user. A failure leaves the session as it was. |
| SistemaAerocode.Sistema.ObterFuncionarioPorCodigo | src/sistema/SistemaAerocode.ts:83-85 | The first employee with the code, or null iff none has it. |
| SistemaAerocode.Sistema.SelecionarAeronave | src/sistema/SistemaAerocode.ts:97-129 | Nothing for an empty list or a blank answer; whatever it picks is a listed aircraft. |
| SistemaAerocode.Sistema.AeronaveAlvo | src/sistema/SistemaAerocode.ts:97-129 | The selected aircraft as a set, empty when nothing is selected. |
| SistemaAerocode.Sistema.EtapaEscolhida | src/sistema/SistemaAerocode.ts:700-725 | A stage is picked iff the aircraft is selected and the typed stage number is within its stages; it is the stage at that number. |
| SistemaAerocode.Sistema.EtapaAlvo | src/sistema/SistemaAerocode.ts:700-725 | The picked stage as a set, empty when none is picked. |
| SistemaAerocode.Sistema.CadastrarAeronave | src/sistema/SistemaAerocode.ts:201-234 | Needs ENGENHEIRO, otherwise nothing changes. Appends a new aircraft with the next code and the given answers, and exactly the five default stages: `ordem` 1 to 5, all PENDENTE, deadlines one to five weeks ahead. |
| SistemaAerocode.Sistema.IniciarEtapa | src/sistema/SistemaAerocode.ts:700-725 | Reports the permission, selection or stage failure, and then the stage is unchanged. Otherwise only a pending stage moves, to ANDAMENTO; any other outcome leaves the stage unchanged. The completed stages of every aircraft stay a prefix. |
| SistemaAerocode.Sistema.FinalizarEtapa | src/sistema/SistemaAerocode.ts:726-758 | A refused call (permission, selection or stage number) leaves the stage unchanged. Otherwise a pending stage is first started and stays started. It is then completed iff the aircraft's rule allows it in that state. With distinct stage names, the completed stages stay a prefix. |
| SistemaAerocode.Sistema.AssociarFuncionarioEtapa | src/sistema/SistemaAerocode.ts:759-802 | Reports each failure in order: permission, selection, stage number, employee number. Every outcome but success leaves the stage unchanged. Otherwise the employee at the typed number is added iff no associated employee has the same code, and codes stay distinct. |
| SistemaAerocode.Sistema.AdicionarTeste | src/sistema/SistemaAerocode.ts:864-905 | Permission and selection are checked first, then the kind, then the result. Every outcome but success leaves the aircraft unchanged. A test is added iff the aircraft has none of that kind, so each aircraft keeps at most one test per kind. |
| SistemaAerocode.Sistema.CadastrarFuncionario | src/sistema/SistemaAerocode.ts:627-660 | Needs ADMINISTRADOR. A taken user name or an unknown level is refused and changes nothing. Otherwise an active employee with the next code is appended, and user names stay distinct. |
| SistemaAerocode.NovaAeronave | src/sistema/SistemaAerocode.ts:213-227 | The aircraft registration builds: the given data, the timestamp as manufacturer, and the five default stages with distinct names. |
| SistemaAerocode.AdicionarEtapasPadrao | src/sistema/SistemaAerocode.ts:218-227 | Adds the five default stages in order to an aircraft that has none; they stay sorted. |
| SistemaAerocode.AdicionarEtapaPadrao | src/sistema/SistemaAerocode.ts:221-227 | Default stage k goes to the end of the k stages before it. |
| SistemaAerocode.FinalizarNaPosicao | src/sistema/SistemaAerocode.ts:744-757 | Finishing the stage at position k: it is started if pending, then completed iff the rule allows it. The completed-prefix shape is kept when names are distinct. |
| SistemaAerocode.IniciarEFinalizar | src/sistema/SistemaAerocode.ts:744-757 | Starts the stage if pending, then completes it iff the aircraft's rule allows it in that state. |
| SistemaAerocode.PodeFinalizarNaPosicao | src/models/Aeronave.ts:54-60 | With distinct names, the rule for stage k holds iff it is ANDAMENTO and k is 0 or stage k - 1 is CONCLUIDA. |
| SistemaAerocode.EstadosAposMudar | src/sistema/SistemaAerocode.ts:744-757 | Changing one stage changes only its own entry in the status list. |
| SistemaAerocode.MesmasConcluidas | src/sistema/SistemaAerocode.ts:744-757 | Status lists that agree on which positions are completed agree on the prefix shape. |
| SistemaAerocode.FinalizarPreservaPrefixo | src/sistema/SistemaAerocode.ts:744-757 | Starting stage k and, when the rule allows it, completing it keeps the completed stages a prefix. |
| SistemaAerocode.SelecionarPorNumero | src/sistema/SistemaAerocode.ts:113-118 | Typing list number k, for 1 ≤ k ≤ length, selects the k-th aircraft. |
| SistemaAerocode.SelecionarPorValor | src/sistema/SistemaAerocode.ts:113-118 | Any answer that `parseInt` reads as n, for 1 ≤ n ≤ length, selects the n-th aircraft, whatever whitespace, sign or trailing text surrounds the number. |
| Texto.ParseIntNaoBranco | src/sistema/SistemaAerocode.ts:108-114 | An answer that `parseInt` reads as a number is not blank after `trim`, so the blank-answer check never hides a list number. |
| SistemaAerocode.SelecionarPorCodigo | src/sistema/SistemaAerocode.ts:120-126 | Typing an aircraft's code, when it is not a list number, selects the first aircraft with that code up to case. |
| SistemaAerocode.CodigoSemEspacos | src/sistema/SistemaAerocode.ts:120-122 | A code with no whitespace at its ends is its own trimmed form. |
| SistemaAerocode.PrimeiroComCodigoAte | src/sistema/SistemaAerocode.ts:120-122 | Looking up the upper-cased code of aircraft i finds it or an earlier aircraft with the same code. |
| SistemaAerocode.SelecionarPorTexto | src/sistema/SistemaAerocode.ts:108-128 | An answer that is not blank and not a list number is looked up as a trimmed, upper-cased code, and nothing is selected when no code matches. |
| CatalogoPecas.Filtrar | src/services/CatalogoPecas.ts:102-111 | Keeps exactly the elements that pass the test, and no more of them than there were. |
| CatalogoPecas.FiltrarPreservaOrdem | src/services/CatalogoPecas.ts:90-95 | Filtering keeps entries in increasing catalogue order. |
| CatalogoPecas.FiltroComIndices | src/services/CatalogoPecas.ts:90-95 | Each kept entry carries its own position in the table, every matching position is kept, and positions increase. |
| CatalogoPecas.Catalogo.ObterQuantidadePecas | src/services/CatalogoPecas.ts:98-100 | The number of entries in the table. |
| CatalogoPecas.Catalogo.ObterPecasDisponiveis | src/services/CatalogoPecas.ts:76-78 | A copy of the table: same length, same entries. |
| CatalogoPecas.Catalogo.ObterPecaPorIndice | src/services/CatalogoPecas.ts:80-85 | Entry i iff 0 ≤ i < length; otherwise null. |
| CatalogoPecas.Catalogo.BuscarPecas | src/services/CatalogoPecas.ts:87-96 | Nothing for a blank term. Otherwise every matching entry is found, each hit matches in name or supplier, points to its own entry, and hits keep table order. |
| CatalogoPecas.Catalogo.ObterPecasPorTipo | src/services/CatalogoPecas.ts:102-104 | Exactly the entries of that origin. |
| CatalogoPecas.Catalogo.TiposParticionam | src/services/CatalogoPecas.ts:133-135 | The national and the imported entries together number the whole table. |
| CatalogoPecas.Catalogo.ObterPecasPorFornecedor | src/services/CatalogoPecas.ts:106-111 | Exactly the entries whose lower-cased supplier contains the trimmed, lower-cased term. |
| CatalogoPecas.Catalogo.PorFornecedorEmBranco | src/services/CatalogoPecas.ts:106-111 | A blank supplier term matches the whole table. |
| CatalogoPecas.Catalogo.ValidarPeca | src/services/CatalogoPecas.ts:143-149 | True iff some entry's name matches ignoring case and the supplier is omitted, empty or matches ignoring case. |
| CatalogoPecas.Catalogo.EntradasSaoValidas | src/services/CatalogoPecas.ts:143-149 | Every entry validates under its own name, with or without its own supplier. |
| CatalogoPecas.Catalogo.ObterEstatisticas | src/services/CatalogoPecas.ts:128-141 | The total is the table's size, and the national and imported counts add up to it. |
| CatalogoPecas.QuantidadeDoCatalogo | src/services/CatalogoPecas.ts:17-74 | The fixed table holds 36 parts. |

## Left out

- Console prompts, menus, the login retry loop and all console output of `src/sistema/SistemaAerocode.ts` are left out. Every answer they read is a parameter.
- JSON text is left out. Each `salvar`/`carregar` works on a record datatype, and a field the source may find absent is an `Option`.
- Clock readings and random values are parameters: `Date.now`/`new Date()`, `Peca.gerarCodigoUnico` and `Aeronave.gerarNumeroSerie`. Dates are opaque numbers or text.
- `toLowerCase`/`toUpperCase` map only ASCII and Latin-1 letters; case mappings beyond U+00FF are not modelled. Within Latin-1, `toUpperCase` leaves three letters unchanged that JavaScript maps elsewhere: ß U+00DF (JavaScript gives "SS"), ÿ U+00FF (U+0178) and µ U+00B5 (U+039C).
- `capacidade` and `alcance` are integers. The NaN that `parseInt` yields for a non-numeric answer, and floating point in general, are not modelled.
- `id`/`codigo`/`ordem` fields are never reassigned by the source, so they are constant fields.
- src/sistema/SistemaAerocode.ts:294-611 is left out: part registration, status update, the part↔employee menu and the detailed part list. At lines 379, 454, 491, 534 and 555 it calls `associarFuncionario`, `listarFuncionarios` and `removerFuncionario` on a `Peca`, and src/models/Peca.ts defines none of them. There are no part↔employee semantics to model.
- SistemaAerocode.Sistema.CadastrarAeronave: the source passes the current ISO timestamp in the manufacturer's position of the `Aeronave` constructor. The model records that as written instead of treating it as a manufacturer name.
- The `src/models` test (`Teste.ts`) is a data holder with no rules, so it is a datatype. Its kind and result are the enumerations the session parses instead of free strings.
- src/services/GerenciadorAeronaves.ts (filesystem load and save), src/services/Relatorio.ts (report text) and src/index.ts (entry point) are not part of this model. Neither are `carregarDados`/`salvarDados`.
- The error classes of src/exception/errors.ts are error kinds. Their message text is not modelled.
- `obterPecasPorCategoria`, `obterDetalhes`/`obterResumo`/`obterDadosRelatorio`, and the supplier and category parts of `obterEstatisticas` are left out. They are text and report helpers with no rule.
- CatalogoPecas.Catalogo.ObterEstatisticas: only the counts are modelled. The split of the fixed table into 12 national and 24 imported parts is not stated, because unfolding the literal table is too costly for the prover. Only the 36-entry total is stated.
- The static registry `Peca.pecasCadastradas` is an explicit `RegistroPecas` object handed to the constructor and to `carregar`. The static catalogue table is the value of `CATALOGO`.
- SistemaAerocode.Sistema.Login: the source does not consult `ativo`, so an inactive employee can log in, and the model keeps that.
- SistemaAerocode.Sistema.SelecionarAeronave: its own contract states only emptiness and membership. The full choice is stated by SistemaAerocode.SelecionarPorValor (every answer `parseInt` reads as a list number) and SistemaAerocode.SelecionarPorTexto (every other non-blank answer).
- SistemaAerocode.SelecionarPorCodigo: it states that the first aircraft with the code is selected, which may be an earlier aircraft sharing the code. Its index bound is in SistemaAerocode.PrimeiroComCodigoAte.
- ArquivoUnico.Etapa.ListarFuncionarios and ModeloFuncionario.Funcionario.Autenticar are plain accessors and comparisons with no contract of their own. Their callers' contracts state what they return.
