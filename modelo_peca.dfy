/**
 * The part of src/models/Peca.ts and the registry of every part built so far, which the
 * source keeps in a static map keyed by part code. Here the registry is an explicit
 * `RegistroPecas` object passed to whoever builds or loads parts. Dates are opaque numbers.
 */
module ModeloPeca {
  import opened Comum
  import opened Enums
  import opened MapaOrdenado

  /** The fields of a part. */
  datatype DadosPeca = DadosPeca(
    nome: string, tipo: TipoPeca, fornecedor: string, status: StatusPeca, codigo: string, dataRegistro: int)

  /**
   * A part record as `carregar` finds it: any field may be absent. A record that could not
   * be parsed at all is a `None` in front of it.
   */
  datatype RegistroPeca = RegistroPeca(
    nome: Option<string>, tipo: Option<TipoPeca>, fornecedor: Option<string>,
    status: Option<StatusPeca>, codigo: Option<string>, dataRegistro: Option<int>)

  /** A JavaScript truthy string: present and not empty. */
  predicate Preenchido(s: Option<string>) {
    s.Some? && s.value != ""
  }

  /** `carregar`'s guard: name, type, supplier, status and code all present, strings non-empty. */
  predicate Completo(r: RegistroPeca) {
    Preenchido(r.nome) && r.tipo.Some? && Preenchido(r.fornecedor) && r.status.Some? && Preenchido(r.codigo)
  }

  /** The fields a complete record loads into; a missing date becomes the current time. */
  function Lido(r: RegistroPeca, agora: int): (d: DadosPeca)
    requires Completo(r)
    ensures d.nome != "" && d.fornecedor != "" && d.codigo != ""
    ensures d.dataRegistro == if r.dataRegistro.Some? then r.dataRegistro.value else agora
  {
    DadosPeca(r.nome.value, r.tipo.value, r.fornecedor.value, r.status.value, r.codigo.value,
              if r.dataRegistro.Some? then r.dataRegistro.value else agora)
  }

  /** The record `salvar` writes (the save time it also writes is never read back). */
  function Gravado(d: DadosPeca): (r: RegistroPeca)
    ensures d.nome != "" && d.fornecedor != "" && d.codigo != "" <==> Completo(r)
    ensures Completo(r) ==> forall agora :: Lido(r, agora) == d
  {
    RegistroPeca(Some(d.nome), Some(d.tipo), Some(d.fornecedor), Some(d.status), Some(d.codigo), Some(d.dataRegistro))
  }

  class Peca {
    var nome: string
    var tipo: TipoPeca
    var fornecedor: string
    var status: StatusPeca
    const codigo: string
    var dataRegistro: int

    /**
     * Builds a part and registers it unless its code is already taken, in which case the
     * registry keeps the part it had. An empty code is replaced by a generated one, which is
     * an input here.
     */
    constructor (registro: RegistroPecas, nome: string, tipo: TipoPeca, fornecedor: string, status: StatusPeca,
                 codigo: string, codigoGerado: string, dataRegistro: int)
      requires registro.Valid()
      modifies registro
      ensures Dados() == DadosPeca(nome, tipo, fornecedor, status, if codigo == "" then codigoGerado else codigo, dataRegistro)
      ensures registro.Valid()
      ensures registro.pecas == if this.codigo in old(registro.pecas.entradas) then old(registro.pecas)
                                else old(registro.pecas).Definir(this.codigo, this)
    {
      this.nome := nome;
      this.tipo := tipo;
      this.fornecedor := fornecedor;
      this.status := status;
      this.codigo := if codigo == "" then codigoGerado else codigo;
      this.dataRegistro := dataRegistro;
      new;
      if !registro.pecas.Tem(this.codigo) {
        registro.pecas := registro.pecas.Definir(this.codigo, this);
      }
    }

    function Dados(): DadosPeca
      reads this
    {
      DadosPeca(nome, tipo, fornecedor, status, codigo, dataRegistro)
    }

    /** Any status may follow any other; nothing but the status changes. */
    method AtualizarStatus(novoStatus: StatusPeca)
      modifies this`status
      ensures Dados() == old(Dados()).(status := novoStatus)
    {
      status := novoStatus;
    }

    function Salvar(): (r: RegistroPeca)
      reads this
      ensures Completo(r) ==> forall agora :: Lido(r, agora) == Dados()
    {
      Gravado(Dados())
    }
  }

  /** The parts of `ps` whose status is the given one, and no others. */
  function ComStatus(ps: seq<Peca>, status: StatusPeca): (r: seq<Peca>)
    reads set p | p in ps
    ensures forall p :: p in r ==> p in ps && p.status == status
    ensures forall i :: 0 <= i < |ps| && ps[i].status == status ==> ps[i] in r
  {
    if ps == [] then []
    else (if ps[0].status == status then [ps[0]] else []) + ComStatus(ps[1..], status)
  }

  /** The parts of `ps` whose type is the given one, and no others. */
  function ComTipo(ps: seq<Peca>, tipo: TipoPeca): (r: seq<Peca>)
    reads set p | p in ps
    ensures forall p :: p in r ==> p in ps && p.tipo == tipo
    ensures forall i :: 0 <= i < |ps| && ps[i].tipo == tipo ==> ps[i] in r
  {
    if ps == [] then []
    else (if ps[0].tipo == tipo then [ps[0]] else []) + ComTipo(ps[1..], tipo)
  }

  /** The registry behind `Peca.pecasCadastradas`: part code to part, in registration order. */
  class RegistroPecas {
    var pecas: Mapa<Peca>

    /** A well-formed map in which every part is filed under its own code. */
    ghost predicate Valid()
      reads this
    {
      pecas.Valido() && forall k :: k in pecas.entradas ==> pecas.entradas[k].codigo == k
    }

    constructor ()
      ensures Valid() && pecas == Mapa.Vazio()
    {
      pecas := Mapa.Vazio();
    }

    /** Every registered part, in registration order. */
    function ListarTodas(): (r: seq<Peca>)
      requires Valid()
      reads this
      ensures |r| == |pecas.chaves| && forall i :: 0 <= i < |r| ==> r[i].codigo == pecas.chaves[i]
      ensures forall i :: 0 <= i < |r| ==> r[i] == pecas.entradas[pecas.chaves[i]]
    {
      pecas.Valores()
    }

    function ListarPorStatus(status: StatusPeca): (r: seq<Peca>)
      requires Valid()
      reads this, pecas.entradas.Values
      ensures forall p :: p in r ==> p.status == status && p.codigo in pecas.entradas && pecas.entradas[p.codigo] == p
      ensures forall k :: k in pecas.entradas && pecas.entradas[k].status == status ==> pecas.entradas[k] in r
    {
      var todas := pecas.Valores();
      ValoresRegistrados(this);
      ComStatus(todas, status)
    }

    function ListarPorTipo(tipo: TipoPeca): (r: seq<Peca>)
      requires Valid()
      reads this, pecas.entradas.Values
      ensures forall p :: p in r ==> p.tipo == tipo && p.codigo in pecas.entradas && pecas.entradas[p.codigo] == p
      ensures forall k :: k in pecas.entradas && pecas.entradas[k].tipo == tipo ==> pecas.entradas[k] in r
    {
      var todas := pecas.Valores();
      ValoresRegistrados(this);
      ComTipo(todas, tipo)
    }

    function ObterPorCodigo(codigo: string): (r: Option<Peca>)
      requires Valid()
      reads this
      ensures r.Some? <==> codigo in pecas.entradas
      ensures r.Some? ==> r.value == pecas.entradas[codigo] && r.value.codigo == codigo
    {
      pecas.Obter(codigo)
    }

    function Contar(): (n: nat)
      requires Valid()
      reads this
      ensures n == |pecas.entradas|
    {
      pecas.Tamanho()
    }

    method Limpar()
      modifies this
      ensures Valid() && pecas == Mapa.Vazio()
      ensures Contar() == 0
    {
      pecas := Mapa.Vazio();
    }

    /**
     * Loads a part record. An unparsable or incomplete record is a load failure and changes
     * nothing. A registered code updates that very part in place and leaves the registry as it
     * is; a new code builds a part and registers it, growing the registry by one.
     */
    method Carregar(registro: Option<RegistroPeca>, agora: int) returns (r: Option<Peca>)
      requires Valid()
      modifies this, if registro.Some? && Completo(registro.value) && registro.value.codigo.value in pecas.entradas
                     then {pecas.entradas[registro.value.codigo.value]} else {}
      ensures Valid()
      ensures r.None? <==> registro.None? || !Completo(registro.value)
      ensures r.None? ==> unchanged(this)
      ensures forall k :: k in old(pecas.entradas) ==> k in pecas.entradas && pecas.entradas[k] == old(pecas.entradas[k])
      ensures forall k :: k in pecas.entradas && k !in old(pecas.entradas) ==> fresh(pecas.entradas[k])
      ensures r.Some? ==> r.value.Dados() == Lido(registro.value, agora)
      ensures r.Some? && old(registro.value.codigo.value in pecas.entradas) ==>
                r.value == old(pecas.entradas[registro.value.codigo.value]) && pecas == old(pecas)
                && Contar() == old(Contar())
      ensures r.Some? && old(registro.value.codigo.value !in pecas.entradas) ==>
                fresh(r.value) && pecas == old(pecas).Definir(r.value.codigo, r.value)
                && Contar() == old(Contar()) + 1
    {
      if registro.None? || !Completo(registro.value) {
        return None;
      }
      var obj := registro.value;
      var data := if obj.dataRegistro.Some? then obj.dataRegistro.value else agora;
      var pecaExistente := pecas.Obter(obj.codigo.value);
      if pecaExistente.Some? {
        var peca := pecaExistente.value;
        peca.nome := obj.nome.value;
        peca.tipo := obj.tipo.value;
        peca.fornecedor := obj.fornecedor.value;
        peca.status := obj.status.value;
        peca.dataRegistro := data;
        r := Some(peca);
      } else {
        var peca := new Peca(this, obj.nome.value, obj.tipo.value, obj.fornecedor.value, obj.status.value,
                             obj.codigo.value, obj.codigo.value, data);
        pecas := pecas.Definir(peca.codigo, peca);
        r := Some(peca);
      }
    }
  }

  /** The registry's values are exactly the parts filed under some code. */
  lemma ValoresRegistrados(registro: RegistroPecas)
    requires registro.Valid()
    ensures forall p :: p in registro.pecas.Valores() ==>
              p.codigo in registro.pecas.entradas && registro.pecas.entradas[p.codigo] == p
    ensures forall k :: k in registro.pecas.entradas ==> registro.pecas.entradas[k] in registro.pecas.Valores()
  {
    forall k | k in registro.pecas.entradas
      ensures registro.pecas.entradas[k] in registro.pecas.Valores()
    {
      ValoresSaoEntradas(registro.pecas, registro.pecas.entradas[k]);
    }
  }
}
