/**
 * The error kinds of the rules engine: `DependenciaExistenteError` and `PermissaoNegadaError`
 * (src/exception/errors.ts, repeated in sistema-aerocode.ts), and the plain `Error`s thrown for
 * a missing or duplicate key. Message texts are not modelled; their data are.
 */
module Erros {
  import opened Enums

  /** The kind of entity an error is about. */
  datatype Entidade = AeronaveE | PecaE | EtapaE | TesteE | FuncionarioE

  /** The operation that was refused for lack of rank. */
  datatype Operacao = DeletarPecaOp | DeletarEtapaOp | DeletarTesteOp | DesativarFuncionarioOp | DeletarAeronaveOp

  /** One line of a blocker list. */
  datatype Dependencia =
    | AeronaveUsa(codigo: string, modelo: string)     // an aircraft still holds the part/stage/test
    | EtapaUsa(etapaId: string, nome: string)         // a stage still lists the employee
    | PecasAssociadas(quantidade: nat)                // the aircraft still has parts attached
    | EtapasAssociadas(quantidade: nat)               // the aircraft still has stages attached
    | TestesRealizados(quantidade: nat)               // the aircraft still has tests attached
    | DicaRemoverAssociacoes                          // the closing hint of an aircraft blocker list

  datatype Erro =
    | DependenciaExistente(entidade: Entidade, id: string, dependencias: seq<Dependencia>)
    | PermissaoNegada(operacao: Operacao, nivelNecessario: NivelPermissao)
    | NaoEncontrado(entidade: Entidade, id: string)
    | JaExiste(entidade: Entidade, id: string)

  /** What a call of a `void` operation that may throw ends with. */
  datatype Resultado = Ok | Falha(erro: Erro)
}
