/**
 * The employee of src/models/Funcionario.ts: credentials, a permission level ranked
 * OPERADOR < ENGENHEIRO < ADMINISTRADOR, and an `ativo` flag used for soft deletion.
 * The employee code is fixed at construction, as nothing in the model reassigns it.
 */
module ModeloFuncionario {
  import opened Comum
  import opened Enums

  /** The eight fields of an employee. */
  datatype DadosFuncionario = DadosFuncionario(
    codigo: string, nome: string, telefone: string, endereco: string,
    usuario: string, senha: string, nivelPermissao: NivelPermissao, ativo: bool)

  /** The record `salvar` writes and `carregar` reads; `ativo` may be absent from it. */
  datatype RegistroFuncionario = RegistroFuncionario(
    codigo: string, nome: string, telefone: string, endereco: string,
    usuario: string, senha: string, nivelPermissao: NivelPermissao, ativo: Option<bool>)

  /** What `carregar` makes of a record: `ativo` defaults to true when absent. */
  function Ler(r: RegistroFuncionario): (d: DadosFuncionario)
    ensures d.ativo <==> r.ativo.None? || r.ativo.value
    ensures d.codigo == r.codigo && d.usuario == r.usuario && d.senha == r.senha
    ensures d.nivelPermissao == r.nivelPermissao
    ensures d.nome == r.nome && d.telefone == r.telefone && d.endereco == r.endereco
  {
    DadosFuncionario(r.codigo, r.nome, r.telefone, r.endereco, r.usuario, r.senha, r.nivelPermissao,
                     if r.ativo.Some? then r.ativo.value else true)
  }

  /** What `salvar` writes: every field, `ativo` included, so that reading it back loses nothing. */
  function Gravar(d: DadosFuncionario): (r: RegistroFuncionario)
    ensures r.ativo.Some?
    ensures Ler(r) == d
  {
    RegistroFuncionario(d.codigo, d.nome, d.telefone, d.endereco, d.usuario, d.senha, d.nivelPermissao, Some(d.ativo))
  }

  class Funcionario {
    const codigo: string
    var nome: string
    var telefone: string
    var endereco: string
    var usuario: string
    var senha: string
    var nivelPermissao: NivelPermissao
    var ativo: bool

    /** A new employee is active. */
    constructor (codigo: string, nome: string, telefone: string, endereco: string, usuario: string,
                 senha: string, nivelPermissao: NivelPermissao)
      ensures Dados() == DadosFuncionario(codigo, nome, telefone, endereco, usuario, senha, nivelPermissao, true)
    {
      this.codigo := codigo;
      this.nome := nome;
      this.telefone := telefone;
      this.endereco := endereco;
      this.usuario := usuario;
      this.senha := senha;
      this.nivelPermissao := nivelPermissao;
      this.ativo := true;
    }

    function Dados(): DadosFuncionario
      reads this
    {
      DadosFuncionario(codigo, nome, telefone, endereco, usuario, senha, nivelPermissao, ativo)
    }

    /** Both the user name and the password must match; `ativo` is not consulted. */
    predicate Autenticar(usuario: string, senha: string)
      reads this
    {
      this.usuario == usuario && this.senha == senha
    }

    /** Rank comparison: an administrator satisfies every level, an operator only OPERADOR. */
    function TemPermissao(nivelRequerido: NivelPermissao): (ok: bool)
      reads this
      ensures ok <==> nivelPermissao == ADMINISTRADOR || nivelRequerido == OPERADOR
                      || nivelPermissao == nivelRequerido
      ensures ok <==> Hierarquia(nivelPermissao) >= Hierarquia(nivelRequerido)
    {
      Satisfaz(nivelPermissao, nivelRequerido)
    }

    method Desativar()
      modifies this`ativo
      ensures Dados() == old(Dados()).(ativo := false)
    {
      ativo := false;
    }

    method Reativar()
      modifies this`ativo
      ensures Dados() == old(Dados()).(ativo := true)
    {
      ativo := true;
    }

    function Salvar(): (r: RegistroFuncionario)
      reads this
      ensures Ler(r) == Dados()
    {
      Gravar(Dados())
    }

    /** Rebuilds an employee from a record; an absent `ativo` means active. */
    static method Carregar(r: RegistroFuncionario) returns (f: Funcionario)
      ensures fresh(f) && f.Dados() == Ler(r)
    {
      f := new Funcionario(r.codigo, r.nome, r.telefone, r.endereco, r.usuario, r.senha, r.nivelPermissao);
      f.ativo := if r.ativo.Some? then r.ativo.value else true;
    }
  }

  /** Saving and loading gives back an employee with the same eight fields. */
  method SalvarECarregar(f: Funcionario) returns (g: Funcionario)
    ensures fresh(g) && g.Dados() == f.Dados()
  {
    g := Funcionario.Carregar(f.Salvar());
  }
}
