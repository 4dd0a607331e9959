/**
 * The production stage of src/models/Etapa.ts: a name, a deadline, a status that only moves
 * forward, a fixed position `ordem`, and the employees working on it, kept distinct by code.
 */
module ModeloEtapa {
  import opened Comum
  import opened Enums
  import opened ModeloFuncionario

  /** Some listed employee carries the code. */
  predicate TemCodigo(fs: seq<Funcionario>, codigo: string) {
    exists i :: 0 <= i < |fs| && fs[i].codigo == codigo
  }

  /** No two listed employees share a code. */
  predicate CodigosDistintos(fs: seq<Funcionario>) {
    forall i, j :: 0 <= i < j < |fs| ==> fs[i].codigo != fs[j].codigo
  }

  /** The codes of a list of employees, in list order. */
  function Codigos(fs: seq<Funcionario>): (cs: seq<string>)
    ensures |cs| == |fs| && forall i :: 0 <= i < |fs| ==> cs[i] == fs[i].codigo
  {
    seq(|fs|, i requires 0 <= i < |fs| => fs[i].codigo)
  }

  /** `funcionarios.find(f => f.codigo === codigo)`: the first employee with the code. */
  function Encontrar(fs: seq<Funcionario>, codigo: string): (r: Option<Funcionario>)
    ensures r.None? <==> !TemCodigo(fs, codigo)
    ensures r.Some? ==> exists i :: 0 <= i < |fs| && fs[i] == r.value && r.value.codigo == codigo
                          && forall j :: 0 <= j < i ==> fs[j].codigo != codigo
  {
    if fs == [] then None
    else if fs[0].codigo == codigo then Some(fs[0])
    else
      var r := Encontrar(fs[1..], codigo);
      assert TemCodigo(fs, codigo) <==> TemCodigo(fs[1..], codigo) by {
        if TemCodigo(fs[1..], codigo) {
          var i :| 0 <= i < |fs[1..]| && fs[1..][i].codigo == codigo;
          assert fs[i + 1].codigo == codigo;
        }
        if TemCodigo(fs, codigo) {
          var i :| 0 <= i < |fs| && fs[i].codigo == codigo;
          assert i > 0 && fs[1..][i - 1].codigo == codigo;
        }
      }
      if r.Some? then
        assert exists i :: 0 <= i < |fs| && fs[i] == r.value && r.value.codigo == codigo
                           && forall j :: 0 <= j < i ==> fs[j].codigo != codigo by {
          var i :| 0 <= i < |fs[1..]| && fs[1..][i] == r.value && r.value.codigo == codigo
                   && forall j :: 0 <= j < i ==> fs[1..][j].codigo != codigo;
          assert forall j :: 0 <= j < i + 1 ==> fs[j].codigo != codigo by {
            forall j | 0 <= j < i + 1 ensures fs[j].codigo != codigo {
              if j > 0 { assert fs[j] == fs[1..][j - 1]; }
            }
          }
        }
        r
      else r
  }

  /** The employees a list of saved codes resolves to: unknown codes are dropped, order is kept. */
  function Resolver(codigos: seq<string>, fs: seq<Funcionario>): seq<Funcionario>
    decreases |codigos|
  {
    if codigos == [] then []
    else
      var n := |codigos| - 1;
      var f := Encontrar(fs, codigos[n]);
      Resolver(codigos[..n], fs) + (if f.Some? then [f.value] else [])
  }

  /** The saved codes that name a known employee, in saved order. */
  function Resolviveis(codigos: seq<string>, fs: seq<Funcionario>): seq<string>
    decreases |codigos|
  {
    if codigos == [] then []
    else
      var n := |codigos| - 1;
      Resolviveis(codigos[..n], fs) + (if TemCodigo(fs, codigos[n]) then [codigos[n]] else [])
  }

  /**
   * Loading keeps exactly the saved codes that resolve, in saved order, and every kept
   * employee is one of the known ones.
   */
  lemma {:induction false} ResolverMantemResolviveis(codigos: seq<string>, fs: seq<Funcionario>)
    ensures Codigos(Resolver(codigos, fs)) == Resolviveis(codigos, fs)
    ensures forall f :: f in Resolver(codigos, fs) ==> f in fs
    decreases |codigos|
  {
    if codigos != [] {
      var n := |codigos| - 1;
      ResolverMantemResolviveis(codigos[..n], fs);
    }
  }

  /**
   * Saving the codes of employees that are each the first of their code among the known ones
   * and resolving them again gives back the same employees.
   */
  lemma {:induction false} ResolverCodigos(gs: seq<Funcionario>, fs: seq<Funcionario>)
    requires forall i :: 0 <= i < |gs| ==> Encontrar(fs, gs[i].codigo) == Some(gs[i])
    ensures Resolver(Codigos(gs), fs) == gs
    decreases |gs|
  {
    if gs != [] {
      var n := |gs| - 1;
      assert Codigos(gs)[..n] == Codigos(gs[..n]);
      ResolverCodigos(gs[..n], fs);
      assert gs == gs[..n] + [gs[n]];
    }
  }

  /** The record `salvar` writes: the employees are saved by code. */
  datatype RegistroEtapa = RegistroEtapa(
    nome: string, prazo: int, status: Option<StatusEtapa>, ordem: int, funcionariosCodigos: Option<seq<string>>)

  class Etapa {
    var nome: string
    var prazo: int
    var status: StatusEtapa
    const ordem: int
    var funcionariosAssociados: seq<Funcionario>

    /** A status left undefined takes the default PENDENTE. */
    constructor (nome: string, prazo: int, status: Option<StatusEtapa>, ordem: int)
      ensures this.nome == nome && this.prazo == prazo && this.ordem == ordem
      ensures this.status == if status.None? then PENDENTE else status.value
      ensures funcionariosAssociados == []
    {
      this.nome := nome;
      this.prazo := prazo;
      this.status := if status.None? then PENDENTE else status.value;
      this.ordem := ordem;
      funcionariosAssociados := [];
    }

    /** Succeeds, moving PENDENTE to ANDAMENTO, exactly when the stage was pending. */
    method Iniciar() returns (sucesso: bool)
      modifies this`status
      ensures sucesso <==> old(status) == PENDENTE
      ensures status == Iniciado(old(status))
    {
      if status == PENDENTE {
        status := ANDAMENTO;
        return true;
      }
      return false;
    }

    /** Succeeds, moving ANDAMENTO to CONCLUIDA, exactly when the stage was in progress. */
    method Finalizar() returns (sucesso: bool)
      modifies this`status
      ensures sucesso <==> old(status) == ANDAMENTO
      ensures status == Finalizado(old(status))
    {
      if status == ANDAMENTO {
        status := CONCLUIDA;
        return true;
      }
      return false;
    }

    /** Appends the employee unless one with the same code is already associated. */
    method AssociarFuncionario(funcionario: Funcionario) returns (associado: bool)
      modifies this`funcionariosAssociados
      ensures associado <==> !TemCodigo(old(funcionariosAssociados), funcionario.codigo)
      ensures funcionariosAssociados == if associado then old(funcionariosAssociados) + [funcionario]
                                         else old(funcionariosAssociados)
      ensures CodigosDistintos(old(funcionariosAssociados)) ==> CodigosDistintos(funcionariosAssociados)
      ensures TemCodigo(funcionariosAssociados, funcionario.codigo)
    {
      var jaAssociado := TemCodigo(funcionariosAssociados, funcionario.codigo);
      if !jaAssociado {
        funcionariosAssociados := funcionariosAssociados + [funcionario];
        assert funcionariosAssociados[|funcionariosAssociados| - 1] == funcionario;
        return true;
      }
      return false;
    }

    /** The associated employees in association order; a sequence is a value, so this is a copy. */
    function ListarFuncionarios(): (r: seq<Funcionario>)
      reads this
      ensures Codigos(r) == Codigos(funcionariosAssociados) && multiset(r) == multiset(funcionariosAssociados)
    {
      funcionariosAssociados
    }

    function Salvar(): (r: RegistroEtapa)
      reads this
      ensures r.status == Some(status) && r.ordem == ordem && r.nome == nome && r.prazo == prazo
      ensures r.funcionariosCodigos == Some(Codigos(funcionariosAssociados))
    {
      RegistroEtapa(nome, prazo, Some(status), ordem, Some(Codigos(funcionariosAssociados)))
    }

    /**
     * Rebuilds a stage from its record, resolving each saved code against the known employees
     * one by one and dropping the codes that name nobody.
     */
    static method Carregar(r: RegistroEtapa, funcionarios: seq<Funcionario>) returns (etapa: Etapa)
      ensures fresh(etapa)
      ensures etapa.nome == r.nome && etapa.prazo == r.prazo && etapa.ordem == r.ordem
      ensures etapa.status == if r.status.None? then PENDENTE else r.status.value
      ensures etapa.funcionariosAssociados
              == if r.funcionariosCodigos.None? then [] else Resolver(r.funcionariosCodigos.value, funcionarios)
    {
      etapa := new Etapa(r.nome, r.prazo, r.status, r.ordem);
      if r.funcionariosCodigos.Some? {
        var codigos := r.funcionariosCodigos.value;
        var i := 0;
        while i < |codigos|
          invariant 0 <= i <= |codigos|
          invariant etapa.funcionariosAssociados == Resolver(codigos[..i], funcionarios)
          invariant etapa.nome == r.nome && etapa.prazo == r.prazo
          invariant etapa.status == if r.status.None? then PENDENTE else r.status.value
        {
          var funcionario := Encontrar(funcionarios, codigos[i]);
          if funcionario.Some? {
            etapa.funcionariosAssociados := etapa.funcionariosAssociados + [funcionario.value];
          }
          assert codigos[..i + 1][..i] == codigos[..i];
          i := i + 1;
        }
        assert codigos[..i] == codigos;
      }
    }
  }
}
