/**
 * The aircraft of src/models/Aeronave.ts: its parts, its production stages kept sorted by
 * `ordem`, its tests, and the rule deciding when a stage may be completed. Dates are opaque
 * numbers; the serial number the source derives from the clock is an input.
 */
module ModeloAeronave {
  import opened Comum
  import opened Enums
  import opened ModeloFuncionario
  import opened ModeloEtapa
  import opened ModeloPeca

  /** A test of src/models/Teste.ts; no code in the model changes a test once made. */
  datatype Teste = Teste(tipo: TipoTeste, resultado: ResultadoTeste, dataRealizacao: int)

  // ---------------------------------------------------------------- ordering stages by `ordem`

  predicate OrdenadoPorOrdem(es: seq<Etapa>) {
    forall i, j :: 0 <= i < j < |es| ==> es[i].ordem <= es[j].ordem
  }

  /**
   * One step of a stable sort by `ordem`: the stage goes after every stage whose `ordem` is
   * not larger than its own.
   */
  function Inserir(es: seq<Etapa>, e: Etapa): (r: seq<Etapa>)
    ensures multiset(r) == multiset(es) + multiset{e}
    ensures OrdenadoPorOrdem(es) ==> OrdenadoPorOrdem(r)
    decreases |es|
  {
    if es == [] then [e]
    else
      var n := |es| - 1;
      if es[n].ordem <= e.ordem then
        OrdenadoAnexar(es, e);
        es + [e]
      else
        var cabeca := Inserir(es[..n], e);
        assert es == es[..n] + [es[n]];
        if OrdenadoPorOrdem(es) then
          OrdenadoPrefixo(es, n);
          InserirAntesDoUltimo(es, e, cabeca);
          cabeca + [es[n]]
        else
          cabeca + [es[n]]
  }

  /** A stage not below the last one of a sorted list can follow it. */
  lemma OrdenadoAnexar(es: seq<Etapa>, e: Etapa)
    requires es != [] && es[|es| - 1].ordem <= e.ordem
    ensures OrdenadoPorOrdem(es) ==> OrdenadoPorOrdem(es + [e])
  {
  }

  /**
   * When the new stage goes before the last one, the last one still ends the list: every
   * stage in front of it, old or new, has an `ordem` not above its own.
   */
  lemma InserirAntesDoUltimo(es: seq<Etapa>, e: Etapa, cabeca: seq<Etapa>)
    requires es != [] && OrdenadoPorOrdem(es) && e.ordem < es[|es| - 1].ordem
    requires multiset(cabeca) == multiset(es[..|es| - 1]) + multiset{e} && OrdenadoPorOrdem(cabeca)
    ensures OrdenadoPorOrdem(cabeca + [es[|es| - 1]])
  {
    var n := |es| - 1;
    forall i | 0 <= i < |cabeca| ensures cabeca[i].ordem <= es[n].ordem {
      var x := cabeca[i];
      assert x in multiset(cabeca);
      if x != e {
        assert x in multiset(es[..n]);
        var j :| 0 <= j < n && es[..n][j] == x;
        assert es[j] == x;
      }
    }
  }

  /** `sort((a, b) => a.ordem - b.ordem)`: a stable insertion sort, front to back. */
  function Ordenar(es: seq<Etapa>): (r: seq<Etapa>)
    ensures OrdenadoPorOrdem(r)
    ensures multiset(r) == multiset(es)
    decreases |es|
  {
    if es == [] then []
    else
      var n := |es| - 1;
      assert es == es[..n] + [es[n]];
      Inserir(Ordenar(es[..n]), es[n])
  }

  /** Inserting a stage whose `ordem` is not below any other's appends it. */
  lemma InserirNoFim(es: seq<Etapa>, e: Etapa)
    requires es != [] ==> es[|es| - 1].ordem <= e.ordem
    ensures Inserir(es, e) == es + [e]
  {
  }

  /** Sorting a sorted list changes nothing. */
  lemma {:induction false} OrdenarOrdenado(es: seq<Etapa>)
    requires OrdenadoPorOrdem(es)
    ensures Ordenar(es) == es
    decreases |es|
  {
    if es != [] {
      var n := |es| - 1;
      OrdenadoPrefixo(es, n);
      OrdenarOrdenado(es[..n]);
      UltimoNoFim(es);
    }
  }

  lemma OrdenadoPrefixo(es: seq<Etapa>, n: nat)
    requires OrdenadoPorOrdem(es) && n <= |es|
    ensures OrdenadoPorOrdem(es[..n])
  {
    assert forall i :: 0 <= i < n ==> es[..n][i] == es[i];
  }

  /** In a sorted list, inserting the last stage into the others puts it back at the end. */
  lemma UltimoNoFim(es: seq<Etapa>)
    requires OrdenadoPorOrdem(es) && es != []
    ensures Inserir(es[..|es| - 1], es[|es| - 1]) == es
  {
    var n := |es| - 1;
    var cabeca := es[..n];
    if n > 0 {
      assert cabeca[n - 1] == es[n - 1];
      assert es[n - 1].ordem <= es[n].ordem;
    }
    InserirNoFim(cabeca, es[n]);
    assert cabeca + [es[n]] == es;
  }

  /** Appending to a sorted list and sorting again is one insertion. */
  lemma OrdenarAposAnexar(es: seq<Etapa>, e: Etapa)
    requires OrdenadoPorOrdem(es)
    ensures Ordenar(es + [e]) == Inserir(es, e)
  {
    assert (es + [e])[..|es|] == es;
    OrdenarOrdenado(es);
  }

  /** The `ordem` values of a list of stages. */
  function Ordens(es: seq<Etapa>): (os: seq<int>)
    ensures |os| == |es| && forall i :: 0 <= i < |es| ==> os[i] == es[i].ordem
  {
    seq(|es|, i requires 0 <= i < |es| => es[i].ordem)
  }

  lemma OrdensAnexar(es: seq<Etapa>, e: Etapa)
    ensures Ordens(es + [e]) == Ordens(es) + [e.ordem]
  {
  }

  lemma OrdensUltimo(es: seq<Etapa>)
    requires es != []
    ensures Ordens(es) == Ordens(es[..|es| - 1]) + [es[|es| - 1].ordem]
  {
    var n := |es| - 1;
    assert es == es[..n] + [es[n]];
    OrdensAnexar(es[..n], es[n]);
  }

  /** Inserting a stage adds its `ordem` to the multiset of `ordem` values. */
  lemma {:induction false} OrdensInserir(es: seq<Etapa>, e: Etapa)
    ensures multiset(Ordens(Inserir(es, e))) == multiset(Ordens(es)) + multiset{e.ordem}
    decreases |es|
  {
    if es != [] {
      var n := |es| - 1;
      var cabeca := es[..n];
      OrdensUltimo(es);
      if es[n].ordem <= e.ordem {
        OrdensAnexar(es, e);
      } else {
        var inserida := Inserir(cabeca, e);
        assert Inserir(es, e) == inserida + [es[n]];
        OrdensInserir(cabeca, e);
        OrdensAnexar(inserida, es[n]);
        calc {
          multiset(Ordens(Inserir(es, e)));
          multiset(Ordens(inserida) + [es[n].ordem]);
          multiset(Ordens(cabeca)) + multiset{e.ordem} + multiset{es[n].ordem};
          multiset(Ordens(cabeca) + [es[n].ordem]) + multiset{e.ordem};
          multiset(Ordens(es)) + multiset{e.ordem};
        }
      }
    }
  }

  /** Sorting keeps the multiset of `ordem` values. */
  lemma {:induction false} OrdensOrdenar(es: seq<Etapa>)
    ensures multiset(Ordens(Ordenar(es))) == multiset(Ordens(es))
    decreases |es|
  {
    if es != [] {
      var n := |es| - 1;
      var cabeca := es[..n];
      var antes := Ordenar(cabeca);
      OrdensOrdenar(cabeca);
      OrdensInserir(antes, es[n]);
      OrdensUltimo(es);
      calc {
        multiset(Ordens(Ordenar(es)));
        multiset(Ordens(Inserir(antes, es[n])));
        multiset(Ordens(antes)) + multiset{es[n].ordem};
        multiset(Ordens(cabeca)) + multiset{es[n].ordem};
        multiset(Ordens(cabeca) + [es[n].ordem]);
        multiset(Ordens(es));
      }
    }
  }

  // ---------------------------------------------------------------- the finishing rule

  /** `findIndex(e => e.nome === nome)`: the first stage with the name, or -1. */
  function PrimeiroPorNome(es: seq<Etapa>, nome: string): (i: int)
    reads (set e | e in es)`nome
    ensures -1 <= i < |es|
    ensures i == -1 <==> forall j :: 0 <= j < |es| ==> es[j].nome != nome
    ensures i >= 0 ==> es[i].nome == nome && forall j :: 0 <= j < i ==> es[j].nome != nome
    decreases |es|
  {
    if es == [] then -1
    else if es[0].nome == nome then 0
    else
      var i := PrimeiroPorNome(es[1..], nome);
      assert forall j :: 0 < j < |es| ==> es[j] == es[1..][j - 1];
      if i == -1 then -1 else i + 1
  }

  /** The statuses of a list of stages. */
  function Estados(es: seq<Etapa>): (ss: seq<StatusEtapa>)
    reads set e | e in es
    ensures |ss| == |es| && forall i :: 0 <= i < |es| ==> ss[i] == es[i].status
  {
    seq(|es|, i requires 0 <= i < |es| reads set e | e in es => es[i].status)
  }

  /** Completed stages form a prefix: a completed stage has only completed stages before it. */
  predicate ConcluidasEmPrefixo(ss: seq<StatusEtapa>) {
    forall i, j :: 0 <= i < j < |ss| && ss[j] == CONCLUIDA ==> ss[i] == CONCLUIDA
  }

  /**
   * Completing the stage at `k` under the finishing rule (in progress, and either first or
   * right after a completed stage) keeps the completed stages a prefix.
   */
  lemma FinalizarMantemPrefixo(ss: seq<StatusEtapa>, k: nat)
    requires ConcluidasEmPrefixo(ss) && k < |ss|
    requires ss[k] == ANDAMENTO && (k == 0 || ss[k - 1] == CONCLUIDA)
    ensures ConcluidasEmPrefixo(ss[k := CONCLUIDA])
  {
    var ts := ss[k := CONCLUIDA];
    forall i, j | 0 <= i < j < |ts| && ts[j] == CONCLUIDA
      ensures ts[i] == CONCLUIDA
    {
      if j == k {
        assert i <= k - 1;
        if i < k - 1 {
          assert ss[k - 1] == CONCLUIDA;
        }
      }
    }
  }

  /** Starting a stage never completes one, so the prefix of completed stages is kept. */
  lemma IniciarMantemPrefixo(ss: seq<StatusEtapa>, k: nat)
    requires ConcluidasEmPrefixo(ss) && k < |ss|
    ensures ConcluidasEmPrefixo(ss[k := Iniciado(ss[k])])
  {
  }

  // ---------------------------------------------------------------- the aircraft

  /** The record `salvar` writes; optional fields may be absent, nested records are lists. */
  datatype RegistroAeronave = RegistroAeronave(
    codigo: string, modelo: string, tipo: TipoAeronave, capacidade: int, alcance: int,
    cliente: Option<string>, fabricante: Option<string>, anoFabricacao: Option<int>,
    numeroSerie: Option<string>, observacoes: Option<string>, dataEntrega: Option<int>,
    pecas: Option<seq<Option<RegistroPeca>>>, etapas: Option<seq<RegistroEtapa>>, testes: Option<seq<Teste>>)

  class Aeronave {
    const codigo: string
    var modelo: string
    var tipo: TipoAeronave
    var capacidade: int
    var alcance: int
    var cliente: string
    var fabricante: string
    var anoFabricacao: int
    var numeroSerie: string
    var observacoes: Option<string>
    var dataEntrega: Option<int>
    var pecas: seq<Peca>
    var etapas: seq<Etapa>
    var testes: seq<Teste>

    /** The stages are kept sorted by `ordem`. */
    ghost predicate Valid()
      reads this
    {
      OrdenadoPorOrdem(etapas)
    }

    /**
     * Builds an aircraft with no parts, stages or tests. An absent client is empty, an
     * absent manufacturer is "Aerocode", an absent year is the current one, and an absent or
     * empty serial number is replaced by the generated one.
     */
    constructor (codigo: string, modelo: string, tipo: TipoAeronave, capacidade: int, alcance: int,
                 cliente: Option<string>, fabricante: Option<string>, anoFabricacao: Option<int>,
                 numeroSerie: Option<string>, observacoes: Option<string>, dataEntrega: Option<int>,
                 anoAtual: int, numeroSerieGerado: string)
      ensures Valid() && pecas == [] && etapas == [] && testes == []
      ensures this.codigo == codigo && this.modelo == modelo && this.tipo == tipo
      ensures this.capacidade == capacidade && this.alcance == alcance
      ensures this.cliente == cliente.GetOr("") && this.fabricante == fabricante.GetOr("Aerocode")
      ensures this.anoFabricacao == anoFabricacao.GetOr(anoAtual)
      ensures this.numeroSerie == if numeroSerie.None? || numeroSerie.value == "" then numeroSerieGerado else numeroSerie.value
      ensures this.observacoes == observacoes && this.dataEntrega == dataEntrega
    {
      this.codigo := codigo;
      this.modelo := modelo;
      this.tipo := tipo;
      this.capacidade := capacidade;
      this.alcance := alcance;
      this.cliente := cliente.GetOr("");
      this.fabricante := fabricante.GetOr("Aerocode");
      this.anoFabricacao := anoFabricacao.GetOr(anoAtual);
      this.numeroSerie := if numeroSerie.None? || numeroSerie.value == "" then numeroSerieGerado else numeroSerie.value;
      this.observacoes := observacoes;
      this.dataEntrega := dataEntrega;
      pecas := [];
      etapas := [];
      testes := [];
    }

    /** Appends, with no check for repeats. */
    method AdicionarPeca(peca: Peca)
      modifies this`pecas
      ensures pecas == old(pecas) + [peca]
    {
      pecas := pecas + [peca];
    }

    function GetPecas(): (r: seq<Peca>)
      reads this
      ensures r == pecas
    {
      pecas
    }

    /**
     * Appends the stage and sorts by `ordem`: the result is sorted, holds the old stages
     * plus the new one, and places the new stage after every stage of equal `ordem`.
     */
    method AdicionarEtapa(etapa: Etapa)
      requires Valid()
      modifies this`etapas
      ensures Valid()
      ensures etapas == Ordenar(old(etapas) + [etapa])
      ensures etapas == Inserir(old(etapas), etapa)
      ensures multiset(etapas) == multiset(old(etapas)) + multiset{etapa}
    {
      OrdenarAposAnexar(etapas, etapa);
      etapas := Ordenar(etapas + [etapa]);
    }

    /**
     * The first stage carrying the given stage's name decides: none means false; the first
     * stage may be completed when the given stage is in progress; a later one also needs the
     * stage before it completed.
     */
    function PodeFinalizarEtapa(etapa: Etapa): (ok: bool)
      reads this, etapa, set e | e in etapas
      ensures PrimeiroPorNome(etapas, etapa.nome) == -1 ==> !ok
      ensures PrimeiroPorNome(etapas, etapa.nome) == 0 ==> (ok <==> etapa.status == ANDAMENTO)
      ensures PrimeiroPorNome(etapas, etapa.nome) > 0 ==>
                (ok <==> etapas[PrimeiroPorNome(etapas, etapa.nome) - 1].status == CONCLUIDA && etapa.status == ANDAMENTO)
    {
      var indiceEtapa := PrimeiroPorNome(etapas, etapa.nome);
      if indiceEtapa == -1 then false
      else if indiceEtapa == 0 then etapa.status == ANDAMENTO
      else etapas[indiceEtapa - 1].status == CONCLUIDA && etapa.status == ANDAMENTO
    }

    function GetEtapas(): (r: seq<Etapa>)
      reads this
      ensures r == etapas
    {
      etapas
    }

    /** Appends, with no check for repeats. */
    method AdicionarTeste(teste: Teste)
      modifies this`testes
      ensures testes == old(testes) + [teste]
    {
      testes := testes + [teste];
    }

    function GetTestes(): (r: seq<Teste>)
      reads this
      ensures r == testes
    {
      testes
    }

    method DefinirDataEntrega(data: int)
      modifies this`dataEntrega
      ensures dataEntrega == Some(data)
    {
      dataEntrega := Some(data);
    }

    /** Fills the lists of an aircraft being loaded; the stages come already sorted. */
    method Preencher(pecas: seq<Peca>, etapas: seq<Etapa>, testes: seq<Teste>)
      requires OrdenadoPorOrdem(etapas)
      modifies this`pecas, this`etapas, this`testes
      ensures Valid() && this.pecas == pecas && this.etapas == etapas && this.testes == testes
    {
      this.pecas := pecas;
      this.etapas := etapas;
      this.testes := testes;
    }

    /**
     * Rebuilds an aircraft from its record. A falsy manufacturer becomes "Aerocode" and a
     * falsy year the current one. The first part that fails to load fails the whole load.
     * Stages are rebuilt against the known employees and then sorted by `ordem`.
     */
    static method Carregar(r: RegistroAeronave, funcionarios: seq<Funcionario>, registro: RegistroPecas,
                           anoAtual: int, numeroSerieGerado: string, agora: int)
      returns (resultado: Option<Aeronave>, ghost carregadas: seq<Etapa>)
      requires registro.Valid()
      modifies registro, registro.pecas.entradas.Values
      ensures registro.Valid()
      ensures forall k :: k in old(registro.pecas.entradas) ==> k in registro.pecas.entradas
      ensures resultado.None? <==> r.pecas.Some? && exists i :: 0 <= i < |r.pecas.value| && !Carregavel(r.pecas.value[i])
      ensures resultado.Some? ==> fresh(resultado.value) && resultado.value.Valid()
      ensures resultado.Some? ==> resultado.value.codigo == r.codigo
      ensures resultado.Some? ==> resultado.value.fabricante == (if Preenchido(r.fabricante) then r.fabricante.value else "Aerocode")
      ensures resultado.Some? ==> resultado.value.anoFabricacao == (if r.anoFabricacao.Some? && r.anoFabricacao.value != 0 then r.anoFabricacao.value else anoAtual)
      ensures resultado.Some? ==> PecasRegistradas(resultado.value.pecas, r.pecas.GetOr([]), registro.pecas.entradas)
      ensures resultado.Some? ==> resultado.value.modelo == r.modelo && resultado.value.tipo == r.tipo
                                  && resultado.value.capacidade == r.capacidade && resultado.value.alcance == r.alcance
      ensures resultado.Some? ==> resultado.value.cliente == r.cliente.GetOr("")
      ensures resultado.Some? ==> resultado.value.numeroSerie
                                  == if r.numeroSerie.None? || r.numeroSerie.value == "" then numeroSerieGerado
                                     else r.numeroSerie.value
      ensures resultado.Some? ==> resultado.value.observacoes == r.observacoes
                                  && resultado.value.dataEntrega == r.dataEntrega
      ensures resultado.Some? ==> multiset(Ordens(resultado.value.etapas)) == multiset(OrdensRegistradas(r.etapas.GetOr([])))
      ensures resultado.Some? ==> multiset(resultado.value.etapas) == multiset(carregadas)
      ensures resultado.Some? ==> (forall e :: e in carregadas ==> fresh(e))
                                  && EtapasCarregadas(carregadas, r.etapas.GetOr([]), funcionarios)
      ensures resultado.Some? ==> resultado.value.testes == r.testes.GetOr([])
    {
      carregadas := [];
      var pecas: seq<Peca> := [];
      if r.pecas.Some? {
        var lidas := CarregarPecas(r.pecas.value, registro, agora);
        if lidas.None? {
          return None, [];
        }
        pecas := lidas.value;
      }
      var etapas;
      etapas, carregadas := CarregarOrdenadas(r.etapas.GetOr([]), funcionarios);
      var aeronave := Montar(r, pecas, etapas, anoAtual, numeroSerieGerado);
      resultado := Some(aeronave);
    }

    /**
     * The aircraft `carregar` builds from the record's scalar fields, with the falsy-value
     * defaults, holding the given lists. Building it last is indistinguishable from building
     * it first: the constructor touches nothing but the new object.
     */
    static method Montar(r: RegistroAeronave, pecas: seq<Peca>, etapas: seq<Etapa>, anoAtual: int,
                         numeroSerieGerado: string) returns (aeronave: Aeronave)
      requires OrdenadoPorOrdem(etapas)
      ensures fresh(aeronave) && aeronave.Valid()
      ensures aeronave.codigo == r.codigo && aeronave.modelo == r.modelo && aeronave.tipo == r.tipo
      ensures aeronave.capacidade == r.capacidade && aeronave.alcance == r.alcance
      ensures aeronave.cliente == r.cliente.GetOr("")
      ensures aeronave.fabricante == (if Preenchido(r.fabricante) then r.fabricante.value else "Aerocode")
      ensures aeronave.anoFabricacao == (if r.anoFabricacao.Some? && r.anoFabricacao.value != 0 then r.anoFabricacao.value else anoAtual)
      ensures aeronave.numeroSerie
              == if r.numeroSerie.None? || r.numeroSerie.value == "" then numeroSerieGerado else r.numeroSerie.value
      ensures aeronave.observacoes == r.observacoes && aeronave.dataEntrega == r.dataEntrega
      ensures aeronave.pecas == pecas && aeronave.etapas == etapas && aeronave.testes == r.testes.GetOr([])
    {
      var fabricante := if Preenchido(r.fabricante) then r.fabricante else Some("Aerocode");
      var ano := if r.anoFabricacao.Some? && r.anoFabricacao.value != 0 then r.anoFabricacao else Some(anoAtual);
      aeronave := new Aeronave(r.codigo, r.modelo, r.tipo, r.capacidade, r.alcance, r.cliente, fabricante, ano,
                               r.numeroSerie, r.observacoes, r.dataEntrega, anoAtual, numeroSerieGerado);
      aeronave.Preencher(pecas, etapas, r.testes.GetOr([]));
    }
  }

  /** Each loaded part carries its record's code and is the part the registry files under it. */
  ghost predicate PecasRegistradas(pecas: seq<Peca>, ps: seq<Option<RegistroPeca>>, entradas: map<string, Peca>) {
    |pecas| == |ps|
    && forall i :: 0 <= i < |pecas| ==>
         Carregavel(ps[i]) && pecas[i].codigo == ps[i].value.codigo.value
         && pecas[i].codigo in entradas && entradas[pecas[i].codigo] == pecas[i]
  }

  /** Loading one more part keeps the loaded parts filed, as long as no filed code changes part. */
  lemma RegistradasAnexar(pecas: seq<Peca>, ps: seq<Option<RegistroPeca>>, i: int, antes: map<string, Peca>,
                          depois: map<string, Peca>, p: Peca)
    requires 0 <= i < |ps| && PecasRegistradas(pecas, ps[..i], antes)
    requires forall k :: k in antes ==> k in depois && depois[k] == antes[k]
    requires Carregavel(ps[i]) && p.codigo == ps[i].value.codigo.value && p.codigo in depois && depois[p.codigo] == p
    ensures PecasRegistradas(pecas + [p], ps[..i + 1], depois)
  {
    var ps' := ps[..i + 1];
    var pecas' := pecas + [p];
    forall j | 0 <= j < |pecas'|
      ensures Carregavel(ps'[j]) && pecas'[j].codigo == ps'[j].value.codigo.value
              && pecas'[j].codigo in depois && depois[pecas'[j].codigo] == pecas'[j]
    {
      if j < |pecas| {
        assert pecas'[j] == pecas[j] && ps'[j] == ps[..i][j];
      }
    }
  }

  /**
   * Loads the part records in order through the registry, stopping at the first failure
   * (the parts loaded before it stay registered).
   */
  method CarregarPecas(ps: seq<Option<RegistroPeca>>, registro: RegistroPecas, agora: int) returns (pecas: Option<seq<Peca>>)
    requires registro.Valid()
    modifies registro, registro.pecas.entradas.Values
    ensures registro.Valid()
    ensures forall k :: k in old(registro.pecas.entradas) ==> k in registro.pecas.entradas
    ensures pecas.None? <==> exists i :: 0 <= i < |ps| && !Carregavel(ps[i])
    ensures pecas.Some? ==> PecasRegistradas(pecas.value, ps, registro.pecas.entradas)
  {
    ghost var inicial := registro.pecas.entradas;
    var carregadas: seq<Peca> := [];
    var i := 0;
    while i < |ps|
      invariant 0 <= i <= |ps|
      invariant registro.Valid()
      invariant forall k :: k in inicial ==> k in registro.pecas.entradas && registro.pecas.entradas[k] == inicial[k]
      invariant forall k :: k in registro.pecas.entradas && k !in inicial ==> fresh(registro.pecas.entradas[k])
      invariant PecasRegistradas(carregadas, ps[..i], registro.pecas.entradas)
      invariant forall o :: o in registro.pecas.entradas.Values ==> o in inicial.Values || fresh(o)
    {
      ghost var antes := registro.pecas.entradas;
      var peca := CarregarUma(ps[i], registro, agora);
      if peca.None? {
        return None;
      }
      RegistradasAnexar(carregadas, ps, i, antes, registro.pecas.entradas, peca.value);
      carregadas := carregadas + [peca.value];
      i := i + 1;
    }
    assert ps[..i] == ps;
    assert forall j :: 0 <= j < |ps| ==> Carregavel(ps[j]);
    return Some(carregadas);
  }

  /** One step of `CarregarPecas`: loads one record, keeping every filed part where it was. */
  method CarregarUma(p: Option<RegistroPeca>, registro: RegistroPecas, agora: int) returns (peca: Option<Peca>)
    requires registro.Valid()
    modifies registro, registro.pecas.entradas.Values
    ensures registro.Valid()
    ensures forall k :: k in old(registro.pecas.entradas) ==>
              k in registro.pecas.entradas && registro.pecas.entradas[k] == old(registro.pecas.entradas[k])
    ensures forall k :: k in registro.pecas.entradas && k !in old(registro.pecas.entradas) ==>
              fresh(registro.pecas.entradas[k])
    ensures peca.None? <==> !Carregavel(p)
    ensures peca.Some? ==> peca.value.codigo == p.value.codigo.value && peca.value.codigo in registro.pecas.entradas
                           && registro.pecas.entradas[peca.value.codigo] == peca.value
  {
    peca := registro.Carregar(p, agora);
  }

  /** Rebuilds the stage records against the known employees, then sorts them by `ordem`. */
  method CarregarOrdenadas(es: seq<RegistroEtapa>, funcionarios: seq<Funcionario>)
    returns (etapas: seq<Etapa>, ghost carregadas: seq<Etapa>)
    ensures OrdenadoPorOrdem(etapas) && multiset(etapas) == multiset(carregadas)
    ensures multiset(Ordens(etapas)) == multiset(OrdensRegistradas(es))
    ensures (forall e :: e in carregadas ==> fresh(e)) && EtapasCarregadas(carregadas, es, funcionarios)
  {
    var lidas := CarregarEtapas(es, funcionarios);
    OrdensOrdenar(lidas);
    etapas := Ordenar(lidas);
    carregadas := lidas;
  }

  /** Rebuilds the stage records in order, each against the known employees. */
  method CarregarEtapas(es: seq<RegistroEtapa>, funcionarios: seq<Funcionario>) returns (etapas: seq<Etapa>)
    ensures Ordens(etapas) == OrdensRegistradas(es)
    ensures (forall e :: e in etapas ==> fresh(e)) && EtapasCarregadas(etapas, es, funcionarios)
  {
    etapas := [];
    var i := 0;
    while i < |es|
      invariant 0 <= i <= |es|
      invariant Ordens(etapas) == OrdensRegistradas(es[..i])
      invariant (forall e :: e in etapas ==> fresh(e)) && EtapasCarregadas(etapas, es[..i], funcionarios)
    {
      var etapa := Etapa.Carregar(es[i], funcionarios);
      CarregadasAnexar(etapas, es, i, etapa, funcionarios);
      etapas := etapas + [etapa];
      i := i + 1;
    }
    assert es[..i] == es;
  }

  /**
   * `e` is what `Etapa.carregar` builds from `r`: the saved name, deadline and order, the
   * status with its PENDENTE default, and the saved employee codes resolved against the
   * known employees.
   */
  ghost predicate CarregadaDe(e: Etapa, r: RegistroEtapa, funcionarios: seq<Funcionario>)
    reads e
  {
    e.nome == r.nome && e.prazo == r.prazo && e.ordem == r.ordem
    && e.status == (if r.status.None? then PENDENTE else r.status.value)
    && e.funcionariosAssociados
       == (if r.funcionariosCodigos.None? then [] else Resolver(r.funcionariosCodigos.value, funcionarios))
  }

  /** Stage i of `cs` is what `Etapa.carregar` builds from record i of `es`. */
  ghost predicate EtapasCarregadas(cs: seq<Etapa>, es: seq<RegistroEtapa>, funcionarios: seq<Funcionario>)
    reads set e | e in cs
  {
    |cs| == |es| && forall i :: 0 <= i < |cs| ==> CarregadaDe(cs[i], es[i], funcionarios)
  }

  /** Rebuilding one more stage record extends the rebuilt list by one. */
  lemma CarregadasAnexar(cs: seq<Etapa>, es: seq<RegistroEtapa>, i: int, e: Etapa, funcionarios: seq<Funcionario>)
    requires 0 <= i < |es| && EtapasCarregadas(cs, es[..i], funcionarios) && CarregadaDe(e, es[i], funcionarios)
    ensures EtapasCarregadas(cs + [e], es[..i + 1], funcionarios)
  {
    var cs', es' := cs + [e], es[..i + 1];
    forall j | 0 <= j < |cs'| ensures CarregadaDe(cs'[j], es'[j], funcionarios) {
      if j < |cs| {
        assert cs'[j] == cs[j] && es'[j] == es[..i][j];
      }
    }
  }

  /** A part record the registry accepts. */
  predicate Carregavel(p: Option<RegistroPeca>) {
    p.Some? && Completo(p.value)
  }

  /** The `ordem` values of a list of stage records. */
  function OrdensRegistradas(rs: seq<RegistroEtapa>): (os: seq<int>)
    ensures |os| == |rs| && forall i :: 0 <= i < |rs| ==> os[i] == rs[i].ordem
  {
    seq(|rs|, i requires 0 <= i < |rs| => rs[i].ordem)
  }
}
