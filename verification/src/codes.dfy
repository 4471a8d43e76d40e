/** Status, product and margin codes. The enumerations live in modules that
    are not part of this model, so each code is an opaque integer constant;
    only their distinctness matters. */
module Codes {

  // ContractStatus (per-product status, the `nome` of a status record)
  const AGUARDANDO_AVERBACAO_REFIN: int := 100
  const AGUARDANDO_DESEMBOLSO: int := 101
  const AGUARDANDO_DESEMBOLSO_REFIN: int := 102
  const AGUARDANDO_FINALIZAR_PORT: int := 103
  const AGUARDANDO_IN100_RECALCULO: int := 104
  const AGUARDANDO_RETORNO_IN100: int := 105
  const AGUARDA_ENVIO_LINK: int := 106
  const AGUARDA_FINALIZACAO_PROPOSTA_PRINCIPAL: int := 107
  const AGUARDA_RETORNO_SALDO: int := 108
  const ANALISE_DE_CREDITO: int := 109
  const ANDAMENTO_CHECAGEM_DATAPREV: int := 110
  const ANDAMENTO_FORMALIZACAO: int := 111
  const ANDAMENTO_LIBERACAO_SAQUE: int := 112
  const ANDAMENTO_REAPRESENTACAO_DO_PAGAMENTO_DE_SAQUE: int := 113
  const ANDAMENTO_SIMULACAO: int := 114
  const APROVADA_AVERBACAO: int := 115
  const APROVADA_FINALIZADA: int := 116
  const APROVADA_MESA_CORBAN: int := 117
  const APROVADA_MESA_DE_FORMALIZACAO: int := 118
  const APROVADA_MESA_FORMALIZACAO: int := 119
  const AVERBACAO_MESA_DE_FORMALIZACAO: int := 120
  const CHECAGEM_MESA_CORBAN: int := 121
  const CHECAGEM_MESA_DE_AVERBECAO: int := 122
  const CHECAGEM_MESA_DE_FORMALIZACAO: int := 123
  const CHECAGEM_MESA_FORMALIZACAO: int := 124
  const EM_AVERBACAO: int := 125
  const ERRO_CONSULTA_DATAPREV: int := 126
  const ERRO_CRIACAO_CARTAO: int := 127
  const ERRO_SOLICITACAO_SAQUE: int := 128
  const FINALIZADA_EMISSAO_CARTAO: int := 129
  const FINALIZADA_LIBERACAO_SAQUE: int := 130
  const FORMALIZACAO_CLIENTE: int := 131
  const INT_AGUARDANDO_PAGO_QITECH: int := 132
  const INT_AGUARDA_AVERBACAO: int := 133
  const INT_AJUSTE_AVERBACAO: int := 134
  const INT_AVERBACAO_PENDENTE: int := 135
  const INT_CONFIRMA_PAGAMENTO: int := 136
  const INT_FINALIZADO: int := 137
  const INT_FINALIZADO_DO_REFIN: int := 138
  const PENDENCIAS_AVERBACAO_CORBAN: int := 139
  const PENDENTE_APROVACAO_RECALCULO_CORBAN: int := 140
  const PENDENTE_CORRECAO_DADOS_BANCARIOS: int := 141
  const PENDENTE_DADOS_DIVERGENTES: int := 142
  const PENDENTE_DOCUMENTACAO: int := 143
  const PENDENTE_DOCUMENTACAO_MESA_CORBAN: int := 144
  const RECUSADA_AVERBACAO: int := 145
  const REGULARIZADA_MESA_AVERBACAO: int := 146
  const REPROVADA_FINALIZADA: int := 147
  const REPROVADA_MESA_CORBAN: int := 148
  const REPROVADA_MESA_DE_AVERBECAO: int := 149
  const REPROVADA_MESA_DE_FORMALIZACAO: int := 150
  const REPROVADA_MESA_FORMALIZACAO: int := 151
  const REPROVADA_PAGAMENTO_DEVOLVIDO: int := 152
  const REPROVADA_POLITICA_INTERNA: int := 153
  const REPROVADA_REVISAO_MESA_DE_FORMALIZACAO: int := 154
  const REPROVADO: int := 155
  const REPROVADO_CONSULTA_DATAPREV: int := 156
  const RETORNO_IN100_RECALCULO_RECEBIDO: int := 157
  const REVISAO_MESA_DE_FORMALIZACAO: int := 158
  const SALDO_REPROVADO: int := 159
  const SALDO_RETORNADO: int := 160
  const SAQUE_CANCELADO_LIMITE_DISPONIVEL_INSUFICIENTE: int := 161
  const SAQUE_RECUSADO_PROBLEMA_PAGAMENTO: int := 162
  const VALIDACOES_AUTOMATICAS: int := 163

  // EnumContratoStatus (the contract's own coarse status)
  const CONTRATO_DIGITACAO: int := 1
  const CONTRATO_AGUARDANDO_FORMALIZACAO: int := 2
  const CONTRATO_FORMALIZADO: int := 3
  const CONTRATO_EM_AVERBACAO: int := 4
  const CONTRATO_PAGO: int := 5
  const CONTRATO_CANCELADO: int := 6
  const CONTRATO_ERRO: int := 7
  const CONTRATO_MESA: int := 8

  // EnumTipoProduto
  const PRODUTO_FGTS: int := 1
  const PRODUTO_INSS_REPRESENTANTE_LEGAL: int := 2
  const PRODUTO_CARTAO_BENEFICIO_REPRESENTANTE: int := 3
  const PRODUTO_PAB: int := 4
  const PRODUTO_INSS_CORBAN: int := 5
  const PRODUTO_CARTAO_BENEFICIO: int := 6
  const PRODUTO_SIAPE: int := 7
  const PRODUTO_EXERCITO: int := 8
  const PRODUTO_MARINHA: int := 9
  const PRODUTO_AERONAUTICA: int := 10
  const PRODUTO_PORTABILIDADE: int := 11
  const PRODUTO_CARTAO_CONSIGNADO: int := 12
  const PRODUTO_SAQUE_COMPLEMENTAR: int := 13
  const PRODUTO_MARGEM_LIVRE: int := 14
  const PRODUTO_INSS: int := 15
  const PRODUTO_PORTABILIDADE_REFINANCIAMENTO: int := 16

  // EnumTipoMargem
  const MARGEM_COMPRA: int := 1
  const MARGEM_SAQUE: int := 2
  const MARGEM_UNIFICADA: int := 3
  const MARGEM_UNICA: int := 4

  // EnumStatusCCB, in the order of the CCB status labels
  const CCB_PENDING_SUBIMISSION: int := 0
  const CCB_PENDING_RESPONSE: int := 1
  const CCB_PENDING_ACCEPTANCE: int := 2
  const CCB_ACCEPTED: int := 3
  const CCB_CANCELED: int := 4
  const CCB_RETAINED: int := 5
  const CCB_SETTLEMENT_SENT: int := 6
  const CCB_PENDING_SETTLMENTE_CONFIMATION: int := 7
  const CCB_PAID: int := 8
  const CCB_REJECTED: int := 9
  const CCB_SIGNATURE_RECEIVED: int := 10
  const CCB_COLLATERAL: int := 11

  /** The nine refusal statuses the views treat as "reproved" when deciding
      whether a contract still counts or still shows its link. */
  const REFUSAL_STATUSES: set<int> := {
    REPROVADA_FINALIZADA, REPROVADA_MESA_FORMALIZACAO, RECUSADA_AVERBACAO,
    REPROVADA_POLITICA_INTERNA, REPROVADA_MESA_CORBAN, REPROVADA_MESA_DE_FORMALIZACAO,
    REPROVADA_PAGAMENTO_DEVOLVIDO, REPROVADO, REPROVADA_REVISAO_MESA_DE_FORMALIZACAO}
}
