/**
 * The self-contained version of the system in sistema-aerocode.ts: its own `Funcionario`,
 * `Peca`, `Teste`, `Etapa` and `Aeronave` classes and `GerenciadorAeronaves`, which keeps five
 * id-keyed registries and deletes restrictively. Identifiers (`id`, `codigo`) are fixed at
 * construction, as the source never reassigns them.
 */
module ArquivoUnico {
  import opened Comum
  import opened Enums
  import opened Erros
  import opened MapaOrdenado

  class Funcionario {
    const id: string
    var nome: string
    var telefone: string
    var endereco: string
    var usuario: string
    var senha: string
    var nivelPermissao: NivelPermissao
    var ativo: bool

    constructor (id: string, nome: string, telefone: string, endereco: string, usuario: string,
                 senha: string, nivelPermissao: NivelPermissao, ativo: bool := true)
      ensures this.id == id && this.nome == nome && this.telefone == telefone
      ensures this.endereco == endereco && this.usuario == usuario && this.senha == senha
      ensures this.nivelPermissao == nivelPermissao && this.ativo == ativo
    {
      this.id := id;
      this.nome := nome;
      this.telefone := telefone;
      this.endereco := endereco;
      this.usuario := usuario;
      this.senha := senha;
      this.nivelPermissao := nivelPermissao;
      this.ativo := ativo;
    }

    predicate Autenticar(senha: string)
      reads this
    {
      this.senha == senha
    }

    /** Rank comparison against the required level. */
    function TemPermissao(nivelRequerido: NivelPermissao): (ok: bool)
      reads this
      ensures ok <==> nivelPermissao == ADMINISTRADOR || nivelRequerido == OPERADOR
                      || nivelPermissao == nivelRequerido
    {
      Satisfaz(nivelPermissao, nivelRequerido)
    }

    /** Soft delete. */
    method Desativar()
      modifies this`ativo
      ensures !ativo
    {
      ativo := false;
    }

    method Reativar()
      modifies this`ativo
      ensures ativo
    {
      ativo := true;
    }
  }

  class Peca {
    const id: string
    var nome: string
    var tipo: TipoPeca
    var fornecedor: string
    var status: StatusPeca

    constructor (id: string, nome: string, tipo: TipoPeca, fornecedor: string, status: StatusPeca)
      ensures this.id == id && this.nome == nome && this.tipo == tipo
      ensures this.fornecedor == fornecedor && this.status == status
    {
      this.id := id;
      this.nome := nome;
      this.tipo := tipo;
      this.fornecedor := fornecedor;
      this.status := status;
    }

    /** Any status may follow any status. */
    method AtualizarStatus(novoStatus: StatusPeca)
      modifies this`status
      ensures status == novoStatus
    {
      status := novoStatus;
    }
  }

  class Teste {
    const id: string
    var tipo: TipoTeste
    var resultado: ResultadoTeste
    var data: string

    constructor (id: string, tipo: TipoTeste, resultado: ResultadoTeste, data: string)
      ensures this.id == id && this.tipo == tipo && this.resultado == resultado && this.data == data
    {
      this.id := id;
      this.tipo := tipo;
      this.resultado := resultado;
      this.data := data;
    }
  }

  class Etapa {
    const id: string
    var nome: string
    var prazo: string
    var status: StatusEtapa
    var funcionarios: seq<Funcionario>

    constructor (id: string, nome: string, prazo: string, status: StatusEtapa)
      ensures this.id == id && this.nome == nome && this.prazo == prazo && this.status == status
      ensures funcionarios == []
    {
      this.id := id;
      this.nome := nome;
      this.prazo := prazo;
      this.status := status;
      funcionarios := [];
    }

    /** PENDENTE becomes ANDAMENTO; any other status is left as it is. */
    method Iniciar()
      modifies this`status
      ensures status == Iniciado(old(status))
    {
      if status == PENDENTE {
        status := ANDAMENTO;
      }
    }

    /** ANDAMENTO becomes CONCLUIDA; any other status is left as it is. */
    method Finalizar()
      modifies this`status
      ensures status == Finalizado(old(status))
    {
      if status == ANDAMENTO {
        status := CONCLUIDA;
      }
    }

    /** Adds the employee object unless that very object is already listed. */
    method AssociarFuncionario(funcionario: Funcionario)
      modifies this`funcionarios
      ensures funcionarios == AnexarSeAusente(old(funcionarios), funcionario)
    {
      if funcionario !in funcionarios {
        funcionarios := funcionarios + [funcionario];
      }
    }

    /** Removes the first listing of the employee object, if there is one. */
    method DesassociarFuncionario(funcionario: Funcionario)
      modifies this`funcionarios
      ensures funcionarios == SemPrimeira(old(funcionarios), funcionario)
    {
      var indice := IndiceDe(funcionarios, funcionario);
      if indice > -1 {
        funcionarios := funcionarios[..indice] + funcionarios[indice + 1..];
      }
    }

    function ListarFuncionarios(): seq<Funcionario>
      reads this
    {
      funcionarios
    }
  }

  class Aeronave {
    const codigo: string
    var modelo: string
    var tipo: TipoAeronave
    var capacidade: int
    var alcance: int
    var pecas: seq<Peca>
    var etapas: seq<Etapa>
    var testes: seq<Teste>

    constructor (codigo: string, modelo: string, tipo: TipoAeronave, capacidade: int, alcance: int)
      ensures this.codigo == codigo && this.modelo == modelo && this.tipo == tipo
      ensures this.capacidade == capacidade && this.alcance == alcance
      ensures pecas == [] && etapas == [] && testes == []
    {
      this.codigo := codigo;
      this.modelo := modelo;
      this.tipo := tipo;
      this.capacidade := capacidade;
      this.alcance := alcance;
      pecas := [];
      etapas := [];
      testes := [];
    }
  }

  // ---------------------------------------------------------------- dependency specification

  /** Which of an aircraft's three collections a dependency scan looks at. */
  datatype Colecao = Pecas | Etapas | Testes

  /** `aeronave.pecas.some(p => p.id === id)`, and likewise for stages and tests. */
  predicate Referencia(a: Aeronave, c: Colecao, id: string)
    reads a
  {
    match c
    case Pecas => exists i :: 0 <= i < |a.pecas| && a.pecas[i].id == id
    case Etapas => exists i :: 0 <= i < |a.etapas| && a.etapas[i].id == id
    case Testes => exists i :: 0 <= i < |a.testes| && a.testes[i].id == id
  }

  /** The blocker list a scan over the aircraft keys `ks` (in that order) produces. */
  function DependenciasEm(m: map<string, Aeronave>, ks: seq<string>, c: Colecao, id: string): seq<Dependencia>
    requires forall k :: k in ks ==> k in m
    reads m.Values
    decreases |ks|
  {
    if ks == [] then []
    else
      var k := ks[|ks| - 1];
      DependenciasEm(m, ks[..|ks| - 1], c, id)
        + (if Referencia(m[k], c, id) then [AeronaveUsa(k, m[k].modelo)] else [])
  }

  /** Does one of the stage's employees carry the id? */
  predicate ListaFuncionario(e: Etapa, funcionarioId: string)
    reads e
  {
    exists i :: 0 <= i < |e.funcionarios| && e.funcionarios[i].id == funcionarioId
  }

  /** The advisory list of stages, in key order `ks`, that still list the employee. */
  function DependenciasFuncionarioEm(m: map<string, Etapa>, ks: seq<string>, funcionarioId: string): seq<Dependencia>
    requires forall k :: k in ks ==> k in m
    reads m.Values
    decreases |ks|
  {
    if ks == [] then []
    else
      var k := ks[|ks| - 1];
      DependenciasFuncionarioEm(m, ks[..|ks| - 1], funcionarioId)
        + (if ListaFuncionario(m[k], funcionarioId) then [EtapaUsa(k, m[k].nome)] else [])
  }

  /** How many lines of a blocker list name the aircraft `codigo`. */
  function Ocorrencias(deps: seq<Dependencia>, codigo: string): nat
    decreases |deps|
  {
    if deps == [] then 0
    else
      var d := deps[|deps| - 1];
      Ocorrencias(deps[..|deps| - 1], codigo) + (if d.AeronaveUsa? && d.codigo == codigo then 1 else 0)
  }

  /** Appending at most one line adds its own occurrence to the count. */
  lemma OcorrenciasAnexar(deps: seq<Dependencia>, extra: seq<Dependencia>, codigo: string)
    requires |extra| <= 1
    ensures Ocorrencias(deps + extra, codigo)
            == Ocorrencias(deps, codigo) + (if extra != [] && extra[0].AeronaveUsa? && extra[0].codigo == codigo then 1 else 0)
  {
    if extra != [] {
      assert (deps + extra)[..|deps|] == deps;
    } else {
      assert deps + extra == deps;
    }
  }

  /** Scanning distinct keys names every aircraft that holds the id exactly once, and no other. */
  lemma {:induction false} DependenciasContagem(m: map<string, Aeronave>, ks: seq<string>, c: Colecao, id: string, codigo: string)
    requires forall k :: k in ks ==> k in m
    requires SemRepeticao(ks)
    ensures Ocorrencias(DependenciasEm(m, ks, c, id), codigo)
            == if codigo in ks && Referencia(m[codigo], c, id) then 1 else 0
    decreases |ks|
  {
    if ks != [] {
      var n := |ks| - 1;
      var pre := ks[..n];
      assert ks == pre + [ks[n]];
      assert SemRepeticao(pre);
      assert ks[n] !in pre by {
        assert forall j :: 0 <= j < n ==> pre[j] == ks[j] && ks[j] != ks[n];
      }
      DependenciasContagem(m, pre, c, id, codigo);
      var extra := if Referencia(m[ks[n]], c, id) then [AeronaveUsa(ks[n], m[ks[n]].modelo)] else [];
      OcorrenciasAnexar(DependenciasEm(m, pre, c, id), extra, codigo);
    }
  }

  /** Every line of the list names a scanned aircraft that holds the id, with its own model. */
  lemma {:induction false} DependenciasForma(m: map<string, Aeronave>, ks: seq<string>, c: Colecao, id: string)
    requires forall k :: k in ks ==> k in m
    ensures forall d :: d in DependenciasEm(m, ks, c, id) ==>
              d.AeronaveUsa? && d.codigo in ks && Referencia(m[d.codigo], c, id) && d.modelo == m[d.codigo].modelo
    decreases |ks|
  {
    if ks != [] {
      var n := |ks| - 1;
      assert ks == ks[..n] + [ks[n]];
      DependenciasForma(m, ks[..n], c, id);
    }
  }

  /** The scan blocks iff some scanned aircraft holds the id. */
  lemma {:induction false} DependenciasVazias(m: map<string, Aeronave>, ks: seq<string>, c: Colecao, id: string)
    requires forall k :: k in ks ==> k in m
    ensures DependenciasEm(m, ks, c, id) == [] <==> forall k :: k in ks ==> !Referencia(m[k], c, id)
    decreases |ks|
  {
    if ks != [] {
      var n := |ks| - 1;
      assert ks == ks[..n] + [ks[n]];
      DependenciasVazias(m, ks[..n], c, id);
    }
  }

  /** The scan over a single aircraft. */
  lemma UmaAeronave(m: map<string, Aeronave>, k: string, c: Colecao, id: string)
    requires k in m
    ensures DependenciasEm(m, [k], c, id) == if Referencia(m[k], c, id) then [AeronaveUsa(k, m[k].modelo)] else []
  {
    assert [k][..0] == [];
  }

  // ---------------------------------------------------------------- the manager

  class GerenciadorAeronaves {
    var aeronaves: Mapa<Aeronave>
    var pecas: Mapa<Peca>
    var etapas: Mapa<Etapa>
    var testes: Mapa<Teste>
    var funcionarios: Mapa<Funcionario>

    /** Every registry is a well-formed ordered map, keyed by the identifier of its value. */
    ghost predicate Valid()
      reads this
    {
      && aeronaves.Valido() && pecas.Valido() && etapas.Valido() && testes.Valido() && funcionarios.Valido()
      && (forall k :: k in aeronaves.entradas ==> aeronaves.entradas[k].codigo == k)
      && (forall k :: k in pecas.entradas ==> pecas.entradas[k].id == k)
      && (forall k :: k in etapas.entradas ==> etapas.entradas[k].id == k)
      && (forall k :: k in testes.entradas ==> testes.entradas[k].id == k)
      && (forall k :: k in funcionarios.entradas ==> funcionarios.entradas[k].id == k)
    }

    constructor ()
      ensures Valid()
      ensures aeronaves == Mapa.Vazio() && pecas == Mapa.Vazio() && etapas == Mapa.Vazio()
      ensures testes == Mapa.Vazio() && funcionarios == Mapa.Vazio()
    {
      aeronaves := Mapa.Vazio();
      pecas := Mapa.Vazio();
      etapas := Mapa.Vazio();
      testes := Mapa.Vazio();
      funcionarios := Mapa.Vazio();
    }

    // ------------------------------------------------ dependency checks

    /**
     * `verificarDependenciasPeca/Etapa/Teste`: walks the aircraft in insertion order and adds
     * one line for each aircraft whose collection holds the id.
     */
    method VerificarDependencias(c: Colecao, id: string) returns (deps: seq<Dependencia>)
      requires Valid()
      ensures deps == DependenciasEm(aeronaves.entradas, aeronaves.chaves, c, id)
    {
      var ks := aeronaves.chaves;
      deps := [];
      var i := 0;
      while i < |ks|
        invariant 0 <= i <= |ks|
        invariant deps == DependenciasEm(aeronaves.entradas, ks[..i], c, id)
      {
        var codigo := ks[i];
        var aeronave := aeronaves.entradas[codigo];
        if Referencia(aeronave, c, id) {
          deps := deps + [AeronaveUsa(codigo, aeronave.modelo)];
        }
        assert ks[..i + 1][..i] == ks[..i];
        i := i + 1;
      }
      assert ks[..i] == ks;
    }

    /** `verificarDependenciasFuncionario`: the stages, in insertion order, that list the employee. */
    method VerificarDependenciasFuncionario(funcionarioId: string) returns (deps: seq<Dependencia>)
      requires Valid()
      ensures deps == DependenciasFuncionarioEm(etapas.entradas, etapas.chaves, funcionarioId)
    {
      var ks := etapas.chaves;
      deps := [];
      var i := 0;
      while i < |ks|
        invariant 0 <= i <= |ks|
        invariant deps == DependenciasFuncionarioEm(etapas.entradas, ks[..i], funcionarioId)
      {
        var etapaId := ks[i];
        var etapa := etapas.entradas[etapaId];
        if ListaFuncionario(etapa, funcionarioId) {
          deps := deps + [EtapaUsa(etapaId, etapa.nome)];
        }
        assert ks[..i + 1][..i] == ks[..i];
        i := i + 1;
      }
      assert ks[..i] == ks;
    }

    /** `verificarDependenciasAeronave`: one line per non-empty collection of the aircraft. */
    function VerificarDependenciasAeronave(codigo: string): (deps: seq<Dependencia>)
      reads this, aeronaves.entradas.Values
      ensures deps == [] <==> codigo !in aeronaves.entradas
                              || (var a := aeronaves.entradas[codigo]; a.pecas == [] && a.etapas == [] && a.testes == [])
      ensures codigo in aeronaves.entradas ==>
                (var a := aeronaves.entradas[codigo];
                 (PecasAssociadas(|a.pecas|) in deps <==> a.pecas != [])
                 && (EtapasAssociadas(|a.etapas|) in deps <==> a.etapas != [])
                 && (TestesRealizados(|a.testes|) in deps <==> a.testes != []))
      ensures codigo in aeronaves.entradas ==>
                (var a := aeronaves.entradas[codigo];
                 |deps| == (if a.pecas != [] then 1 else 0) + (if a.etapas != [] then 1 else 0)
                           + (if a.testes != [] then 1 else 0)
                 && (a.pecas != [] ==> deps[0] == PecasAssociadas(|a.pecas|))
                 && (a.etapas != [] ==> deps[if a.pecas != [] then 1 else 0] == EtapasAssociadas(|a.etapas|))
                 && (a.testes != [] ==> deps[|deps| - 1] == TestesRealizados(|a.testes|)))
    {
      if codigo !in aeronaves.entradas then []
      else
        var a := aeronaves.entradas[codigo];
        (if |a.pecas| > 0 then [PecasAssociadas(|a.pecas|)] else [])
          + (if |a.etapas| > 0 then [EtapasAssociadas(|a.etapas|)] else [])
          + (if |a.testes| > 0 then [TestesRealizados(|a.testes|)] else [])
    }

    // ------------------------------------------------ restrictive deletes

    method DeletarPeca(pecaId: string, usuarioLogado: Funcionario) returns (r: Resultado)
      requires Valid()
      modifies this
      ensures Valid()
      ensures r == if !usuarioLogado.TemPermissao(ENGENHEIRO) then Falha(PermissaoNegada(DeletarPecaOp, ENGENHEIRO))
                   else if pecaId !in old(pecas.entradas) then Falha(NaoEncontrado(PecaE, pecaId))
                   else if old(DependenciasEm(aeronaves.entradas, aeronaves.chaves, Pecas, pecaId)) != [] then
                     Falha(DependenciaExistente(PecaE, pecaId, old(DependenciasEm(aeronaves.entradas, aeronaves.chaves, Pecas, pecaId))))
                   else Ok
      ensures r.Falha? ==> unchanged(this)
      ensures r.Ok? ==> pecas == old(pecas).Remover(pecaId)
      ensures aeronaves == old(aeronaves) && etapas == old(etapas) && testes == old(testes)
      ensures funcionarios == old(funcionarios)
    {
      if !usuarioLogado.TemPermissao(ENGENHEIRO) {
        return Falha(PermissaoNegada(DeletarPecaOp, ENGENHEIRO));
      }
      if pecaId !in pecas.entradas {
        return Falha(NaoEncontrado(PecaE, pecaId));
      }
      var dependencias := VerificarDependencias(Pecas, pecaId);
      if |dependencias| > 0 {
        return Falha(DependenciaExistente(PecaE, pecaId, dependencias));
      }
      pecas := pecas.Remover(pecaId);
      r := Ok;
    }

    method DeletarEtapa(etapaId: string, usuarioLogado: Funcionario) returns (r: Resultado)
      requires Valid()
      modifies this
      ensures Valid()
      ensures r == if !usuarioLogado.TemPermissao(ENGENHEIRO) then Falha(PermissaoNegada(DeletarEtapaOp, ENGENHEIRO))
                   else if etapaId !in old(etapas.entradas) then Falha(NaoEncontrado(EtapaE, etapaId))
                   else if old(DependenciasEm(aeronaves.entradas, aeronaves.chaves, Etapas, etapaId)) != [] then
                     Falha(DependenciaExistente(EtapaE, etapaId, old(DependenciasEm(aeronaves.entradas, aeronaves.chaves, Etapas, etapaId))))
                   else Ok
      ensures r.Falha? ==> unchanged(this)
      ensures r.Ok? ==> etapas == old(etapas).Remover(etapaId)
      ensures aeronaves == old(aeronaves) && pecas == old(pecas) && testes == old(testes)
      ensures funcionarios == old(funcionarios)
    {
      if !usuarioLogado.TemPermissao(ENGENHEIRO) {
        return Falha(PermissaoNegada(DeletarEtapaOp, ENGENHEIRO));
      }
      if etapaId !in etapas.entradas {
        return Falha(NaoEncontrado(EtapaE, etapaId));
      }
      var dependencias := VerificarDependencias(Etapas, etapaId);
      if |dependencias| > 0 {
        return Falha(DependenciaExistente(EtapaE, etapaId, dependencias));
      }
      etapas := etapas.Remover(etapaId);
      r := Ok;
    }

    method DeletarTeste(testeId: string, usuarioLogado: Funcionario) returns (r: Resultado)
      requires Valid()
      modifies this
      ensures Valid()
      ensures r == if !usuarioLogado.TemPermissao(ENGENHEIRO) then Falha(PermissaoNegada(DeletarTesteOp, ENGENHEIRO))
                   else if testeId !in old(testes.entradas) then Falha(NaoEncontrado(TesteE, testeId))
                   else if old(DependenciasEm(aeronaves.entradas, aeronaves.chaves, Testes, testeId)) != [] then
                     Falha(DependenciaExistente(TesteE, testeId, old(DependenciasEm(aeronaves.entradas, aeronaves.chaves, Testes, testeId))))
                   else Ok
      ensures r.Falha? ==> unchanged(this)
      ensures r.Ok? ==> testes == old(testes).Remover(testeId)
      ensures aeronaves == old(aeronaves) && pecas == old(pecas) && etapas == old(etapas)
      ensures funcionarios == old(funcionarios)
    {
      if !usuarioLogado.TemPermissao(ENGENHEIRO) {
        return Falha(PermissaoNegada(DeletarTesteOp, ENGENHEIRO));
      }
      if testeId !in testes.entradas {
        return Falha(NaoEncontrado(TesteE, testeId));
      }
      var dependencias := VerificarDependencias(Testes, testeId);
      if |dependencias| > 0 {
        return Falha(DependenciaExistente(TesteE, testeId, dependencias));
      }
      testes := testes.Remover(testeId);
      r := Ok;
    }

    /**
     * Soft delete: never blocked by stage references, which only come back as an advisory
     * list; the employee stays registered with `ativo` false.
     */
    method DeletarFuncionario(funcionarioId: string, usuarioLogado: Funcionario) returns (r: Resultado, aviso: seq<Dependencia>)
      requires Valid()
      modifies (if funcionarioId in funcionarios.entradas then {funcionarios.entradas[funcionarioId]} else {})`ativo
      ensures r == if !old(usuarioLogado.TemPermissao(ADMINISTRADOR)) then Falha(PermissaoNegada(DesativarFuncionarioOp, ADMINISTRADOR))
                   else if funcionarioId !in funcionarios.entradas then Falha(NaoEncontrado(FuncionarioE, funcionarioId))
                   else Ok
      ensures r.Ok? ==> !funcionarios.entradas[funcionarioId].ativo
      ensures r.Ok? ==> aviso == old(DependenciasFuncionarioEm(etapas.entradas, etapas.chaves, funcionarioId))
      ensures r.Falha? ==> aviso == [] && (funcionarioId in funcionarios.entradas ==>
                             funcionarios.entradas[funcionarioId].ativo == old(funcionarios.entradas[funcionarioId].ativo))
      ensures BuscarFuncionario(funcionarioId) == old(BuscarFuncionario(funcionarioId))
    {
      if !usuarioLogado.TemPermissao(ADMINISTRADOR) {
        return Falha(PermissaoNegada(DesativarFuncionarioOp, ADMINISTRADOR)), [];
      }
      if funcionarioId !in funcionarios.entradas {
        return Falha(NaoEncontrado(FuncionarioE, funcionarioId)), [];
      }
      var funcionario := funcionarios.entradas[funcionarioId];
      aviso := VerificarDependenciasFuncionario(funcionarioId);
      funcionario.Desativar();
      r := Ok;
    }

    method DeletarAeronave(codigo: string, usuarioLogado: Funcionario) returns (r: Resultado)
      requires Valid()
      modifies this
      ensures Valid()
      ensures r == if !usuarioLogado.TemPermissao(ADMINISTRADOR) then Falha(PermissaoNegada(DeletarAeronaveOp, ADMINISTRADOR))
                   else if codigo !in old(aeronaves.entradas) then Falha(NaoEncontrado(AeronaveE, codigo))
                   else if old(VerificarDependenciasAeronave(codigo)) != [] then
                     Falha(DependenciaExistente(AeronaveE, codigo, old(VerificarDependenciasAeronave(codigo)) + [DicaRemoverAssociacoes]))
                   else Ok
      ensures r.Falha? ==> unchanged(this)
      ensures r.Ok? ==> aeronaves == old(aeronaves).Remover(codigo)
      ensures pecas == old(pecas) && etapas == old(etapas) && testes == old(testes)
      ensures funcionarios == old(funcionarios)
    {
      if !usuarioLogado.TemPermissao(ADMINISTRADOR) {
        return Falha(PermissaoNegada(DeletarAeronaveOp, ADMINISTRADOR));
      }
      if codigo !in aeronaves.entradas {
        return Falha(NaoEncontrado(AeronaveE, codigo));
      }
      var dependencias := VerificarDependenciasAeronave(codigo);
      if |dependencias| > 0 {
        return Falha(DependenciaExistente(AeronaveE, codigo, dependencias + [DicaRemoverAssociacoes]));
      }
      aeronaves := aeronaves.Remover(codigo);
      r := Ok;
    }

    // ------------------------------------------------ inserts

    method AdicionarAeronave(aeronave: Aeronave) returns (r: Resultado)
      requires Valid()
      modifies this
      ensures Valid()
      ensures r == if aeronave.codigo in old(aeronaves.entradas) then Falha(JaExiste(AeronaveE, aeronave.codigo)) else Ok
      ensures aeronaves == if r.Ok? then old(aeronaves).Definir(aeronave.codigo, aeronave) else old(aeronaves)
      ensures pecas == old(pecas) && etapas == old(etapas) && testes == old(testes)
      ensures funcionarios == old(funcionarios)
    {
      if aeronaves.Tem(aeronave.codigo) {
        return Falha(JaExiste(AeronaveE, aeronave.codigo));
      }
      aeronaves := aeronaves.Definir(aeronave.codigo, aeronave);
      r := Ok;
    }

    method AdicionarPeca(peca: Peca) returns (r: Resultado)
      requires Valid()
      modifies this
      ensures Valid()
      ensures r == if peca.id in old(pecas.entradas) then Falha(JaExiste(PecaE, peca.id)) else Ok
      ensures pecas == if r.Ok? then old(pecas).Definir(peca.id, peca) else old(pecas)
      ensures aeronaves == old(aeronaves) && etapas == old(etapas) && testes == old(testes)
      ensures funcionarios == old(funcionarios)
    {
      if pecas.Tem(peca.id) {
        return Falha(JaExiste(PecaE, peca.id));
      }
      pecas := pecas.Definir(peca.id, peca);
      r := Ok;
    }

    method AdicionarEtapa(etapa: Etapa) returns (r: Resultado)
      requires Valid()
      modifies this
      ensures Valid()
      ensures r == if etapa.id in old(etapas.entradas) then Falha(JaExiste(EtapaE, etapa.id)) else Ok
      ensures etapas == if r.Ok? then old(etapas).Definir(etapa.id, etapa) else old(etapas)
      ensures aeronaves == old(aeronaves) && pecas == old(pecas) && testes == old(testes)
      ensures funcionarios == old(funcionarios)
    {
      if etapas.Tem(etapa.id) {
        return Falha(JaExiste(EtapaE, etapa.id));
      }
      etapas := etapas.Definir(etapa.id, etapa);
      r := Ok;
    }

    method AdicionarTeste(teste: Teste) returns (r: Resultado)
      requires Valid()
      modifies this
      ensures Valid()
      ensures r == if teste.id in old(testes.entradas) then Falha(JaExiste(TesteE, teste.id)) else Ok
      ensures testes == if r.Ok? then old(testes).Definir(teste.id, teste) else old(testes)
      ensures aeronaves == old(aeronaves) && pecas == old(pecas) && etapas == old(etapas)
      ensures funcionarios == old(funcionarios)
    {
      if testes.Tem(teste.id) {
        return Falha(JaExiste(TesteE, teste.id));
      }
      testes := testes.Definir(teste.id, teste);
      r := Ok;
    }

    method AdicionarFuncionario(funcionario: Funcionario) returns (r: Resultado)
      requires Valid()
      modifies this
      ensures Valid()
      ensures r == if funcionario.id in old(funcionarios.entradas) then Falha(JaExiste(FuncionarioE, funcionario.id)) else Ok
      ensures funcionarios == if r.Ok? then old(funcionarios).Definir(funcionario.id, funcionario) else old(funcionarios)
      ensures aeronaves == old(aeronaves) && pecas == old(pecas) && etapas == old(etapas)
      ensures testes == old(testes)
    {
      if funcionarios.Tem(funcionario.id) {
        return Falha(JaExiste(FuncionarioE, funcionario.id));
      }
      funcionarios := funcionarios.Definir(funcionario.id, funcionario);
      r := Ok;
    }

    // ------------------------------------------------ lookups and listings

    function BuscarAeronave(codigo: string): (r: Option<Aeronave>)
      requires Valid()
      reads this
      ensures r.Some? <==> codigo in aeronaves.entradas
      ensures r.Some? ==> r.value == aeronaves.entradas[codigo]
      ensures r.Some? ==> r.value.codigo == codigo
    {
      aeronaves.Obter(codigo)
    }

    function BuscarPeca(id: string): (r: Option<Peca>)
      requires Valid()
      reads this
      ensures r.Some? <==> id in pecas.entradas
      ensures r.Some? ==> r.value == pecas.entradas[id]
      ensures r.Some? ==> r.value.id == id
    {
      pecas.Obter(id)
    }

    function BuscarEtapa(id: string): (r: Option<Etapa>)
      requires Valid()
      reads this
      ensures r.Some? <==> id in etapas.entradas
      ensures r.Some? ==> r.value == etapas.entradas[id]
      ensures r.Some? ==> r.value.id == id
    {
      etapas.Obter(id)
    }

    function BuscarTeste(id: string): (r: Option<Teste>)
      requires Valid()
      reads this
      ensures r.Some? <==> id in testes.entradas
      ensures r.Some? ==> r.value == testes.entradas[id]
      ensures r.Some? ==> r.value.id == id
    {
      testes.Obter(id)
    }

    function BuscarFuncionario(id: string): (r: Option<Funcionario>)
      reads this
      ensures r.Some? <==> id in funcionarios.entradas
      ensures r.Some? ==> r.value == funcionarios.entradas[id]
    {
      funcionarios.Obter(id)
    }

    /** The aircraft in registration order: the i-th carries the i-th registered code. */
    function ListarAeronaves(): (r: seq<Aeronave>)
      requires Valid()
      reads this
      ensures |r| == |aeronaves.chaves| && forall i :: 0 <= i < |r| ==> r[i].codigo == aeronaves.chaves[i]
      ensures forall i :: 0 <= i < |r| ==> r[i] == aeronaves.entradas[aeronaves.chaves[i]]
    {
      aeronaves.Valores()
    }

    function ListarPecas(): (r: seq<Peca>)
      requires Valid()
      reads this
      ensures |r| == |pecas.chaves| && forall i :: 0 <= i < |r| ==> r[i].id == pecas.chaves[i]
      ensures forall i :: 0 <= i < |r| ==> r[i] == pecas.entradas[pecas.chaves[i]]
    {
      pecas.Valores()
    }

    function ListarEtapas(): (r: seq<Etapa>)
      requires Valid()
      reads this
      ensures |r| == |etapas.chaves| && forall i :: 0 <= i < |r| ==> r[i].id == etapas.chaves[i]
      ensures forall i :: 0 <= i < |r| ==> r[i] == etapas.entradas[etapas.chaves[i]]
    {
      etapas.Valores()
    }

    function ListarTestes(): (r: seq<Teste>)
      requires Valid()
      reads this
      ensures |r| == |testes.chaves| && forall i :: 0 <= i < |r| ==> r[i].id == testes.chaves[i]
      ensures forall i :: 0 <= i < |r| ==> r[i] == testes.entradas[testes.chaves[i]]
    {
      testes.Valores()
    }

    function ListarFuncionarios(): (r: seq<Funcionario>)
      requires Valid()
      reads this
      ensures |r| == |funcionarios.chaves| && forall i :: 0 <= i < |r| ==> r[i].id == funcionarios.chaves[i]
      ensures forall i :: 0 <= i < |r| ==> r[i] == funcionarios.entradas[funcionarios.chaves[i]]
    {
      funcionarios.Valores()
    }

    /** The active registered employees, and only those. */
    function ListarFuncionariosAtivos(): (r: seq<Funcionario>)
      requires Valid()
      reads this, funcionarios.entradas.Values
      ensures forall f :: f in r ==> f.ativo && f in funcionarios.entradas.Values
      ensures forall k :: k in funcionarios.entradas && funcionarios.entradas[k].ativo ==> funcionarios.entradas[k] in r
    {
      var todos := funcionarios.Valores();
      assert forall k :: k in funcionarios.entradas ==> funcionarios.entradas[k] in todos by {
        forall k | k in funcionarios.entradas ensures funcionarios.entradas[k] in todos {
          ValoresSaoEntradas(funcionarios, funcionarios.entradas[k]);
        }
      }
      SoAtivos(todos)
    }

    // ------------------------------------------------ associations

    method AssociarPecaAeronave(aeronaveId: string, pecaId: string) returns (r: Resultado)
      requires Valid()
      modifies (if aeronaveId in aeronaves.entradas then {aeronaves.entradas[aeronaveId]} else {})`pecas
      ensures r == if aeronaveId !in aeronaves.entradas then Falha(NaoEncontrado(AeronaveE, aeronaveId))
                   else if pecaId !in pecas.entradas then Falha(NaoEncontrado(PecaE, pecaId))
                   else Ok
      ensures r.Ok? ==> aeronaves.entradas[aeronaveId].pecas
                        == AnexarSeAusente(old(aeronaves.entradas[aeronaveId].pecas), pecas.entradas[pecaId])
      ensures r.Falha? && aeronaveId in aeronaves.entradas ==>
                aeronaves.entradas[aeronaveId].pecas == old(aeronaves.entradas[aeronaveId].pecas)
      ensures aeronaveId in aeronaves.entradas && SemRepeticao(old(aeronaves.entradas[aeronaveId].pecas)) ==>
                SemRepeticao(aeronaves.entradas[aeronaveId].pecas)
    {
      var aeronave := aeronaves.Obter(aeronaveId);
      var peca := pecas.Obter(pecaId);
      if aeronave.None? {
        return Falha(NaoEncontrado(AeronaveE, aeronaveId));
      }
      if peca.None? {
        return Falha(NaoEncontrado(PecaE, pecaId));
      }
      var a := aeronave.value;
      if peca.value !in a.pecas {
        a.pecas := a.pecas + [peca.value];
      }
      r := Ok;
    }

    method AssociarEtapaAeronave(aeronaveId: string, etapaId: string) returns (r: Resultado)
      requires Valid()
      modifies (if aeronaveId in aeronaves.entradas then {aeronaves.entradas[aeronaveId]} else {})`etapas
      ensures r == if aeronaveId !in aeronaves.entradas then Falha(NaoEncontrado(AeronaveE, aeronaveId))
                   else if etapaId !in etapas.entradas then Falha(NaoEncontrado(EtapaE, etapaId))
                   else Ok
      ensures r.Ok? ==> aeronaves.entradas[aeronaveId].etapas
                        == AnexarSeAusente(old(aeronaves.entradas[aeronaveId].etapas), etapas.entradas[etapaId])
      ensures r.Falha? && aeronaveId in aeronaves.entradas ==>
                aeronaves.entradas[aeronaveId].etapas == old(aeronaves.entradas[aeronaveId].etapas)
      ensures aeronaveId in aeronaves.entradas && SemRepeticao(old(aeronaves.entradas[aeronaveId].etapas)) ==>
                SemRepeticao(aeronaves.entradas[aeronaveId].etapas)
    {
      var aeronave := aeronaves.Obter(aeronaveId);
      var etapa := etapas.Obter(etapaId);
      if aeronave.None? {
        return Falha(NaoEncontrado(AeronaveE, aeronaveId));
      }
      if etapa.None? {
        return Falha(NaoEncontrado(EtapaE, etapaId));
      }
      var a := aeronave.value;
      if etapa.value !in a.etapas {
        a.etapas := a.etapas + [etapa.value];
      }
      r := Ok;
    }

    method AssociarTesteAeronave(aeronaveId: string, testeId: string) returns (r: Resultado)
      requires Valid()
      modifies (if aeronaveId in aeronaves.entradas then {aeronaves.entradas[aeronaveId]} else {})`testes
      ensures r == if aeronaveId !in aeronaves.entradas then Falha(NaoEncontrado(AeronaveE, aeronaveId))
                   else if testeId !in testes.entradas then Falha(NaoEncontrado(TesteE, testeId))
                   else Ok
      ensures r.Ok? ==> aeronaves.entradas[aeronaveId].testes
                        == AnexarSeAusente(old(aeronaves.entradas[aeronaveId].testes), testes.entradas[testeId])
      ensures r.Falha? && aeronaveId in aeronaves.entradas ==>
                aeronaves.entradas[aeronaveId].testes == old(aeronaves.entradas[aeronaveId].testes)
      ensures aeronaveId in aeronaves.entradas && SemRepeticao(old(aeronaves.entradas[aeronaveId].testes)) ==>
                SemRepeticao(aeronaves.entradas[aeronaveId].testes)
    {
      var aeronave := aeronaves.Obter(aeronaveId);
      var teste := testes.Obter(testeId);
      if aeronave.None? {
        return Falha(NaoEncontrado(AeronaveE, aeronaveId));
      }
      if teste.None? {
        return Falha(NaoEncontrado(TesteE, testeId));
      }
      var a := aeronave.value;
      if teste.value !in a.testes {
        a.testes := a.testes + [teste.value];
      }
      r := Ok;
    }
  }

  /** `filter(f => f.ativo)`: the active employees of `fs`, and only those. */
  function SoAtivos(fs: seq<Funcionario>): (r: seq<Funcionario>)
    reads set f | f in fs
    ensures forall f :: f in r ==> f in fs && f.ativo
    ensures forall i :: 0 <= i < |fs| && fs[i].ativo ==> fs[i] in r
    ensures |r| <= |fs|
  {
    if fs == [] then []
    else (if fs[0].ativo then [fs[0]] else []) + SoAtivos(fs[1..])
  }

  /** The registrations of the demonstration: two employees and the aircraft EMB195. */
  method CadastrarPessoalEAeronave() returns (sistema: GerenciadorAeronaves, eng: Funcionario)
    ensures fresh(sistema) && sistema.Valid() && eng.nivelPermissao == ENGENHEIRO
    ensures sistema.aeronaves.chaves == ["EMB195"] && "EMB195" in sistema.aeronaves.entradas
    ensures fresh(sistema.aeronaves.entradas["EMB195"])
    ensures sistema.aeronaves.entradas["EMB195"].modelo == "E195-E2"
    ensures sistema.aeronaves.entradas["EMB195"].pecas == []
    ensures sistema.pecas == Mapa.Vazio()
  {
    sistema, eng := CadastrarPessoal();
    var av1 := new Aeronave("EMB195", "E195-E2", COMERCIAL, 146, 3700);
    var r := sistema.AdicionarAeronave(av1);
  }

  /** The two employees of the demonstration: the administrator F001 and the engineer F002. */
  method CadastrarPessoal() returns (sistema: GerenciadorAeronaves, eng: Funcionario)
    ensures fresh(sistema) && sistema.Valid() && eng.nivelPermissao == ENGENHEIRO
    ensures sistema.aeronaves == Mapa.Vazio() && sistema.pecas == Mapa.Vazio()
  {
    sistema := new GerenciadorAeronaves();
    var admin := new Funcionario("F001", "Carlos Admin", "12-99999", "Rua A", "admin", "123", ADMINISTRADOR);
    eng := new Funcionario("F002", "Maria Eng", "12-88888", "Rua B", "maria", "456", ENGENHEIRO);
    var r := sistema.AdicionarFuncionario(admin);
    r := sistema.AdicionarFuncionario(eng);
  }

  /**
   * The set-up of the demonstration at the end of sistema-aerocode.ts: two employees, the
   * aircraft EMB195, parts P001 and P002, and P001 attached to EMB195.
   */
  method MontarCenario() returns (sistema: GerenciadorAeronaves, eng: Funcionario)
    ensures fresh(sistema) && sistema.Valid() && eng.nivelPermissao == ENGENHEIRO
    ensures sistema.aeronaves.chaves == ["EMB195"] && "EMB195" in sistema.aeronaves.entradas
    ensures sistema.aeronaves.entradas["EMB195"].modelo == "E195-E2"
    ensures "P001" in sistema.pecas.entradas && "P002" in sistema.pecas.entradas
    ensures sistema.aeronaves.entradas["EMB195"].pecas == [sistema.pecas.entradas["P001"]]
    ensures DependenciasEm(sistema.aeronaves.entradas, sistema.aeronaves.chaves, Pecas, "P001")
            == [AeronaveUsa("EMB195", "E195-E2")]
    ensures DependenciasEm(sistema.aeronaves.entradas, sistema.aeronaves.chaves, Pecas, "P002") == []
  {
    sistema, eng := CadastrarPessoalEAeronave();
    CadastrarPecas(sistema);
    var r := sistema.AssociarPecaAeronave("EMB195", "P001");
    DependenciasDoCenario(sistema.aeronaves.entradas, sistema.pecas.entradas["P001"]);
  }

  /** With EMB195 holding only P001, P001 has one blocker and P002 none. */
  lemma DependenciasDoCenario(m: map<string, Aeronave>, p1: Peca)
    requires "EMB195" in m && m["EMB195"].pecas == [p1] && p1.id == "P001"
    ensures DependenciasEm(m, ["EMB195"], Pecas, "P001") == [AeronaveUsa("EMB195", m["EMB195"].modelo)]
    ensures DependenciasEm(m, ["EMB195"], Pecas, "P002") == []
  {
    var av1 := m["EMB195"];
    assert av1.pecas[0].id == "P001";
    assert Referencia(av1, Pecas, "P001");
    UmaAeronave(m, "EMB195", Pecas, "P001");
    UmaAeronave(m, "EMB195", Pecas, "P002");
  }

  /** The parts of the demonstration, P001 and P002, registered in an empty parts registry. */
  method CadastrarPecas(sistema: GerenciadorAeronaves)
    requires sistema.Valid() && sistema.pecas == Mapa.Vazio()
    modifies sistema
    ensures sistema.Valid() && sistema.aeronaves == old(sistema.aeronaves)
    ensures "P001" in sistema.pecas.entradas && "P002" in sistema.pecas.entradas
  {
    var p1 := new Peca("P001", "Motor", IMPORTADA, "P&W", PRONTA);
    var p2 := new Peca("P002", "Asa", NACIONAL, "Embraer", PRONTA);
    var r := sistema.AdicionarPeca(p1);
    r := sistema.AdicionarPeca(p2);
  }

  /**
   * The demonstration itself: the engineer cannot delete P001, which EMB195 uses, and can
   * delete the unattached P002.
   */
  method Demonstracao() returns (tentativaP001: Resultado, tentativaP002: Resultado)
    ensures tentativaP001 == Falha(DependenciaExistente(PecaE, "P001", [AeronaveUsa("EMB195", "E195-E2")]))
    ensures tentativaP002 == Ok
  {
    var sistema, eng := MontarCenario();
    tentativaP001 := sistema.DeletarPeca("P001", eng);
    tentativaP002 := sistema.DeletarPeca("P002", eng);
  }
}
