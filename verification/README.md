# Payroll-loan and benefit-card back office — a Dafny model

This project models the decision layer of a Django back office for
payroll-deductible loans (consignado), portability with and without
refinancing, free-margin loans and benefit cards. It does not model the
ORM, the HTTP clients, the S3 uploads or the PDF rendering around that
layer. The model covers:

- the benefit-eligibility rules;
- the fixed-width Generali insurance file;
- card-limit and withdrawal arithmetic;
- the contract status log and the admin decision tables;
- the parsers and formatters;
- margin selection and rollback at the four averbadoras (payroll consignment
  processors Zetra, Fácil, Serpro and Neoconsig);
- the Corban and user hierarchies;
- the decisions of the admin page script.

Everything is written as immutable datatypes and pure functions. Each
operation has a contract stating what its result means, and lemmas relate
it to a partner: an inverse, an invariant, a reference definition or an
idempotence statement.

## Conventions

- Database rows are records; a query's answer is an input sequence. Status
  and product codes (`ContractStatus`, `EnumContratoStatus`,
  `EnumTipoProduto`, ...) are distinct `int` constants in module `Codes`.
  The enumeration module that defines them is not part of this model, so
  their numeric values are arbitrary; only their distinctness is used.
- Money is `int` cents unless the source computes in floating point, where
  `real` is used and rounding is named where it matters.
- Python exceptions become `Result.Err(message)`, and a `None` becomes
  `Option.None`. `s.split(sep)[k]` is `Common.SplitAt`, with `None` for the
  `IndexError`.
- Every answer of an external service is an input value: QiTech, Dock,
  Banksoft, BRB, the averbadoras, the rules hub and the translator. So are
  the clock and slugified names.
- Dates are proleptic Gregorian (`Common.Date`, `Calendar`), with Python's
  `toordinal`, `relativedelta(months=n)` and `timedelta(days=1)` written out.

## Modules

| module | file | source |
|---|---|---|
| Common, Codes, Calendar | common.dfy, codes.dfy, calendar.dfy | shared helpers, constants, date arithmetic |
| BenefitRules | benefit_rules.dfy | handlers/validar_regras_beneficio_contrato.py |
| PortabilityViews | portability_views.dfy | contract/products/portabilidade/views.py |
| ProposalInserter | proposal_inserter.dfy | core/tasks/insert_portability_proposal/qitech_proposal_inserter.py |
| PortabilityTasks | portability_tasks.dfy | contract/products/portabilidade/tasks.py |
| GeneraliFile | generali_file.dfy | handlers/criar_dados_planos.py |
| CoreTasks | core_tasks.dfy | core/tasks/__init__.py |
| CoreUtils | core_utils.dfy | core/utils.py |
| ClienteModel | cliente.dfy | core/models/cliente.py |
| CardSimulation | card_simulation.dfy | contract/products/cartao_beneficio/Simulacao.py |
| CardApiViews | card_api_views.dfy | contract/products/cartao_beneficio/api/views.py |
| ConvenioModel | convenio.dfy | contract/products/cartao_beneficio/models/convenio.py |
| SimulationApi | simulation_api.dfy | simulacao/api/views.py |
| ContractViews | contract_views.dfy | contract/views.py |
| Contracts | contracts.dfy | contract/models/contratos.py |
| CoreAdmin | core_admin.dfy | core/admin.py |
| ContractApiViews | contract_api_views.dfy | contract/api/views/__init__.py |
| PortabilityApiViews | portability_api_views.dfy | contract/products/portabilidade/api/views.py |
| FinancialPortability | financial_portability.dfy | contract/products/portabilidade_refin/handlers/proposal_financial_portability.py |
| PortRefinApi | port_refin_api.dfy | contract/products/portabilidade_refin/api.py |
| ConsignadoInssViews | consignado_inss_views.dfy | contract/products/consignado_inss/api/views.py |
| CoreApiViews | core_api_views.dfy | core/api/views.py |
| ContractSerializers | contract_serializers.dfy | contract/api/serializers/__init__.py |
| ContractAdmin | contract_admin.dfy | contract/admin.py |
| RegularizacaoContrato | regularizacao.dfy | contract/models/regularizacao_contrato/__init__.py |
| CustomAuthModels, CustomAuthViews, CustomAuthAdmin | custom_auth_models.dfy, custom_auth_views.dfy, custom_auth_admin.dfy | custom_auth/models.py, views.py, admin.py |
| Averbadoras | averbadoras.dfy | the card, margin-slot and unified-reserve model shared by the averbadora handlers |
| Zetra, Facil, Serpro, Neoconsig | zetra.dfy, facil.dfy, serpro.dfy, neoconsig.dfy | handlers/zetra.py, facil.py, serpro.py, neoconsig.py |
| In100Cartao, Banksoft, DockFormalizacao, Brb | in100_cartao.dfy, banksoft.dfy, dock_formalizacao.dfy, brb.dfy | handlers/in100_cartao.py, banksoft.py, dock_formalizacao.py, brb.py |
| WebhookQitech, Qitech, Consultas | webhook_qitech.dfy, qitech.dfy, consultas.dfy | handlers/webhook_qitech/__init__.py, qitech.py, consultas.py |
| CustomAdmin | custom_admin.dfy | static/admin/custom_admin.js |

All files are under `src/` and are verified together.

## Model

| member | source | states |
|---|---|---|
| Contracts.AddRecord | contract/products/portabilidade/views.py:42-48 | appending a status record keeps the earlier history as a prefix and both status fields unchanged; the new last status is the record's name |
| Contracts.BucketName | contract/models/contratos.py:452-474 | the bucket is Amigoz exactly for the card family, Portabilidade exactly for the portability family, INSS exactly for the INSS family, and none for any other product |
| Contracts.IsActive | contract/models/contratos.py:476-484 | an active contract is in one of the eight contract statuses and is not paid, cancelled or erroring |
| Contracts.TerminalStatusesInactive | contract/models/contratos.py:476-484 | exactly five statuses are active: of the eight contract statuses, all but paid, cancelled and erroring |
| Contracts.PortRefinStatus | contract/models/contratos.py:428-434 | a port+refin contract shows the portability status unless that is INT_FINALIZADO, then the refinancing status |
| Contracts.StatusProduto | contract/models/contratos.py:413-438 | the shown status is the matching product row's status (port+refin switching to the refinancing once the portability is finished), '-' exactly for products with no row kind, an error when the row is missing |
| Contracts.StatusProdutoPortRefin | contract/models/contratos.py:428-434 | whenever both rows exist, the shown port+refin status is the PortRefinStatus rule |
| Contracts.ChaveProposta | contract/models/contratos.py:363-370 | free margin yields a one-element tuple holding the free-margin key; portability and port+refin yield their row's key; other products yield nothing |
| Contracts.PortabilityFlagSuccess | contract/models/contratos.py:1601-1604 | a successful portability insertion clears "being inserted", sets success and changes nothing else |
| Contracts.RefinancingFlagSuccess | contract/models/contratos.py:2159-2161 | a successful refinancing insertion sets success without touching "being inserted" or anything else |
| Contracts.FlagSuccessDifference | contract/models/contratos.py:2159-2161 | the two success flaggings give the same row exactly when no insertion was in progress |
| Contracts.QiTechSuccessUpdate | contract/models/contratos.py:1616-1621 | the QiTech success update stores both keys and sets the CCB status to PENDING_SUBIMISSION, leaving the insertion flags alone |
| Contracts.PendingAccountAgreement | contract/models/contratos.py:2182-2185 | a pending account for a refinancing implies one for free margin; they disagree only on present-but-empty bank data |
| BenefitRules.LimitesIdadeEDuracoes | handlers/validar_regras_beneficio_contrato.py:24-44 | the two lists have equal length and ascend strictly; they are empty exactly for a concession before the cut-off; durations are 3,6,10,15,20; the 2021+ age limits are the older ones plus one |
| BenefitRules.DuracaoDentroFaixaLimite | handlers/validar_regras_beneficio_contrato.py:47-71 | true iff, for the first age limit strictly above the concession age (if any), duration×12 − benefit months ≥ instalments |
| BenefitRules.WithinBandFrom | handlers/validar_regras_beneficio_contrato.py:67-71 | the scan from any index past limits not above the age agrees with the first-limit-above rule |
| BenefitRules.DuracaoUnrestrictedCases | handlers/validar_regras_beneficio_contrato.py:34-36 | a concession before 2015-06-17, or an age at or above every limit, always passes |
| BenefitRules.DuracaoFirstLimitDecides | handlers/validar_regras_beneficio_contrato.py:67-71 | for a 2021 concession at age 25 exactly the 6-year band decides: passes iff 72 − months ≥ instalments |
| BenefitRules.ValidarRegraMorte | handlers/validar_regras_beneficio_contrato.py:139-173 | no concession date: refused with 'Não possui data de concessão'; species outside {2,21,93}: approved with no reason; inside: approved iff the duration check passes, reason '-' or 'Fora da Politica' |
| BenefitRules.MatchingBands | handlers/validar_regras_beneficio_contrato.py:338-342 | a band is matched iff it is in the table and its closed age range holds the age |
| BenefitRules.ValidarRegraFaixaIdade | handlers/validar_regras_beneficio_contrato.py:323-372 | approved iff exactly one band holds the age and both instalments and value lie in its closed ranges; no band → refused; a reason is given exactly when refused |
| BenefitRules.OverlappingBandsReject | handlers/validar_regras_beneficio_contrato.py:352-360 | two bands holding the age refuse, whatever the terms |
| BenefitRules.ValidarTipoProdutoAsWritten | handlers/validar_regras_beneficio_contrato.py:243-256 | an unset (falsy) declaration raises; an int requires equality, a list membership, and a tuple accepts every product |
| BenefitRules.TupleGuardLetsAnyProductThrough | handlers/validar_regras_beneficio_contrato.py:421-424 | the free-margin validator's tuple lets a portability contract through the guard as written, while the corrected guard refuses it |
| BenefitRules.ValidarTipoProduto | handlers/validar_regras_beneficio_contrato.py:236-256 | corrected guard: accepts iff the declaration is truthy and the product equals the int or belongs to the list or tuple |
| BenefitRules.GuardsAgreeOffTuples | handlers/validar_regras_beneficio_contrato.py:247-253 | the corrected and as-written guards agree on every declaration that is not a tuple |
| BenefitRules.Validar | handlers/validar_regras_beneficio_contrato.py:308-321 | a failed product guard or unset instalments raise; a failed death rule is returned unchanged without the age-band check; otherwise the age band decides |
| BenefitRules.ValidarWithoutConcession | handlers/validar_regras_beneficio_contrato.py:145-149 | a contract without a concession date gets the death rule's refusal from the whole pipeline |
| PortabilityViews.StatusReprovacao | contract/products/portabilidade/views.py:52-60 | the reproval list holds exactly six distinct codes, including REPROVADO and INT_FINALIZADO but not FORMALIZACAO_CLIENTE or AGUARDANDO_RETORNO_IN100 |
| PortabilityViews.ValidarRegraEspecie | contract/products/portabilidade/views.py:293-339 | no concession: refused with 'não possui data de concessão'; age-rule species refused iff under 55, or below 59y11m29d with under 15 benefit years; species 87 refused iff age ≥ the parameter; others approved; refusals carry 'Fora da Politica' |
| PortabilityViews.ValidarRegraEspecieMonotone | contract/products/portabilidade/views.py:322-334 | outside species 87 an older client or a longer-held benefit never loses an approval |
| PortabilityViews.ValidacaoRegraMorte | contract/products/portabilidade/views.py:342-390 | refused iff, for species {2,21,93}, the first age limit above the concession age leaves fewer remaining months than instalments; no concession date refuses with its own reason |
| PortabilityViews.FirstAbove | contract/products/portabilidade/views.py:379-386 | the search returns the first index whose limit is above the age, or none when no limit is |
| PortabilityViews.DeathRulesAgree | contract/products/portabilidade/views.py:365-389 | the portability death rule approves exactly when the contract validator's death rule does |
| PortabilityViews.AtualizarContratoPortabilidade | contract/products/portabilidade/views.py:24-48 | both statuses are set and exactly one history record, named after the portability status, is appended |
| PortabilityViews.StatusEnvioLink | contract/products/portabilidade/views.py:66-162 | at most one record is appended; a contract whose last status is a reproval is untouched; IN100 not returned and last status not reproval/AGUARDANDO_RETORNO_IN100 → AGUARDANDO_RETORNO_IN100 with DIGITACAO; refusal only with CANCELADO/REPROVADO |
| PortabilityViews.StatusEnvioLinkIdempotent | contract/products/portabilidade/views.py:66-162 | running the link decision twice on the same IN100 facts changes nothing the second time |
| ProposalInserter.TypesNeedingValidationShape | core/tasks/insert_portability_proposal/qitech_proposal_inserter.py:66-77 | the species tuple has ten distinct codes, the same as the set the link-sending rule checks |
| ProposalInserter.IsBenefitBlocked | core/tasks/insert_portability_proposal/qitech_proposal_inserter.py:466-467 | a benefit is blocked exactly in the situations the link-sending rule refuses: ineligible, or blocked in either gender |
| ProposalInserter.SpeciesNeedsValidation | core/tasks/insert_portability_proposal/qitech_proposal_inserter.py:469-472 | a species needs its rule checked exactly when the link-sending rule's species set holds it |
| ProposalInserter.ValidateProposal | core/tasks/insert_portability_proposal/qitech_proposal_inserter.py:392-413 | reproved status, unregistered species, blocked benefit and failing species rule are checked in that order with their reasons; valid iff none applies |
| ProposalInserter.ValidationAgreesWithLinkRule | core/tasks/insert_portability_proposal/qitech_proposal_inserter.py:392-413 | for a non-reproved contract with a returned IN100, the proposal is invalid exactly when the link-sending rule refuses it |
| ProposalInserter.ExtractFirstAndLastDueDate | core/tasks/insert_portability_proposal/qitech_proposal_inserter.py:295-305 | the dates are those of the first and last instalment of the first disbursement option; an empty list raises |
| ProposalInserter.AcceptProposal | core/tasks/insert_portability_proposal/qitech_proposal_inserter.py:374-381 | moves to FORMALIZACAO_CLIENTE with one record only if no formalization status exists yet; afterwards one always exists |
| ProposalInserter.AcceptProposalIdempotent | core/tasks/insert_portability_proposal/qitech_proposal_inserter.py:374-381 | accepting twice equals accepting once |
| ProposalInserter.InsertProposal | core/tasks/insert_portability_proposal/qitech_proposal_inserter.py:233-256 | the "being inserted" flag is first written true and last written false on every path; a non-http CCB url raises before validation; refusals carry the validation reason; acceptance needs a valid proposal and a returned IN100 |
| PortabilityTasks.StatusQueReprova | contract/products/portabilidade/tasks.py:483-511 | a row is reproved iff its status is one of the ten; then the contract is CANCELADO, the row REPROVADO and one "CIP expired" record appended; otherwise nothing changes |
| PortabilityTasks.StatusQueReprovaIdempotent | contract/products/portabilidade/tasks.py:483-511 | a row the rule reproved is not reproved again |
| PortabilityTasks.ReproveRows | contract/products/portabilidade/tasks.py:528-531 | every row of a contract is processed: each is REPROVADO iff it was in the ten statuses, one record per reproved row, the contract cancelled iff some row was reproved |
| PortabilityTasks.AutomacaoReprova | contract/products/portabilidade/tasks.py:515-533 | contracts updated outside the window are untouched; every contract inside it has all its rows processed |
| PortabilityTasks.AutomacaoReprovaIdempotent | contract/products/portabilidade/tasks.py:515-533 | running the automation again on the same day changes nothing and sends no further refusal |
| PortabilityTasks.WindowEdges | contract/products/portabilidade/tasks.py:521-526 | exactly 10 and exactly 60 days ago are inside the window; 9 and 61 days ago are outside |
| PortabilityTasks.VerificarEnviarProposta | contract/products/portabilidade/tasks.py:387-421 | exactly one branch runs, the smaller-debt one iff the updated balance is below the typed one |
| PortabilityTasks.RecalculationSetup | contract/products/portabilidade/tasks.py:80-90 | the fixed instalment plus the safety value gives back the original instalment; the minimum rate is the recalculation one when set and non-zero, else the plain one |
| GeneraliFile.Mock | handlers/criar_dados_planos.py:64-65 | exactly `size` copies of the character, none for a non-positive size |
| GeneraliFile.Header | handlers/criar_dados_planos.py:121-126 | tagged '0' and ends with `000001` and a newline; with full-width fields it is a 1300-character record with version `0001.8` at offset 30 and blanks up to the slot |
| GeneraliFile.Collection | handlers/criar_dados_planos.py:29-45 | tagged '3'; with full-width fields it is 1300 characters plus newline, motivo 'A' at offset 95, blanks up to the slot and the sequence at [1294,1300) |
| GeneraliFile.BrToDotDecimal | handlers/criar_dados_planos.py:168-170 | the result has no comma, and its dots are exactly the commas left after the thousands dots are removed |
| GeneraliFile.Adhesion | handlers/criar_dados_planos.py:129-175 | tagged '1'; with full-width fields it is 1300 characters plus newline with the CPF at [61,76), the sale date at [76,84) and the sequence at [1294,1300) |
| GeneraliFile.Trailer | handlers/criar_dados_planos.py:178-181 | tagged '9'; the count is right-justified with '0' in six characters, then blanks, then the sequence |
| GeneraliFile.TrailerCount | handlers/criar_dados_planos.py:178-181 | a trailer built from a zero-padded count below one million reads back as that count |
| GeneraliFile.CountReg | handlers/criar_dados_planos.py:78-87 | counts exactly the lines not starting with '0' or '9': zero iff all are header/trailer, all iff none is |
| GeneraliFile.CountRegAppend | handlers/criar_dados_planos.py:78-87 | the count of a concatenation is the sum of the counts |
| GeneraliFile.CheckDataInRange | handlers/criar_dados_planos.py:196-210 | empty file gives (False, False); otherwise the slice [start-1, end) of the last line and its first character; an empty last line raises and is swallowed |
| GeneraliFile.NextSequence | handlers/criar_dados_planos.py:385-391 | on an empty file the current sequence is kept when one is bound and the build fails when none is (the first call site); with nothing bound, success means a number was read from the last record |
| GeneraliFile.NextSequenceUnboundOnShortLine | handlers/criar_dados_planos.py:385-391 | at the first call site a last line shorter than 1295 characters leaves the sequence unbound and the build fails |
| GeneraliFile.NextSequenceAfterRecord | handlers/criar_dados_planos.py:385-391 | after a full record with sequence k the next sequence is k+1 zero-padded to six |
| GeneraliFile.ParseIntOneChar | handlers/criar_dados_planos.py:51 | `int` of the first character succeeds exactly on a digit, with its value |
| GeneraliFile.KeyOfFullRecord | handlers/criar_dados_planos.py:51 | the sort key of a full record is its tag and the last four digits of its sequence |
| GeneraliFile.KeyWrapsAtTenThousand | handlers/criar_dados_planos.py:51 | records with sequences 9999 and 10000 get keys 9999 and 0 |
| GeneraliFile.SortLines | handlers/criar_dados_planos.py:51 | the sorted lines are a permutation of the input ordered by key |
| GeneraliFile.Renumber | handlers/criar_dados_planos.py:57-58 | a full-width line keeps everything outside [1294,1300) and gets the number zero-padded to six there; a short line gets the number appended |
| GeneraliFile.AjustarPosicoes | handlers/criar_dados_planos.py:48-61 | succeeds iff every line has a readable key; the output has the input's line count and is the key-sorted permutation with slot i holding i+1 |
| GeneraliFile.AjustarPosicoesKeepsRecords | handlers/criar_dados_planos.py:48-61 | on a file of full records every output line is an input record, still full, with its tag and newline and the new number in its slot |
| GeneraliFile.RemoveWhileEnumeratingIsAlternating | handlers/criar_dados_planos.py:184-193 | the loop as written deletes a matching line unless the line before it was just deleted |
| GeneraliFile.RemoveFirstLineAsWritten | handlers/criar_dados_planos.py:184-193 | the loop as written, deleting from the list it enumerates, equals the reference definition in which a matching line is removed unless the line before it was removed; it never adds lines |
| GeneraliFile.RemoveFirstLineStartingWith | handlers/criar_dados_planos.py:184-193 | the first line starting with the text is removed and nothing else; without a match the file is unchanged |
| GeneraliFile.RemoveAgreesOnSingleMatch | handlers/criar_dados_planos.py:184-193 | when at most one line matches, the loop as written and the corrected operation agree |
| GeneraliFile.RemoveAsWrittenDropsSecondMatch | handlers/criar_dados_planos.py:184-193 | with two non-adjacent matching lines the loop as written deletes both |
| GeneraliFile.RemoveFirstKeepsSecondMatch | handlers/criar_dados_planos.py:184-193 | on the same lines the corrected removal deletes only the first matching line |
| CoreUtils.ZFill | core/utils.py:699-706 | `str.zfill`: the text padded on the left with zeros to the width; for digit text the same as a zero pad |
| CoreUtils.FormatarCpf | core/utils.py:699-706 | the mask has dots at 3 and 7 and a dash at 11, and with them removed gives back the CPF zero-filled to 11; an 11-or-fewer-digit CPF keeps its numeric value |
| CoreUtils.GroupUngroup | core/utils.py:116-122 | taking the separators out of a grouped digit string gives the digits back |
| CoreUtils.GroupSeparatorAt | core/utils.py:116-122 | in a grouped string a separator sits exactly at the positions a multiple of four from the end, never first |
| CoreUtils.TwoDecimals | core/utils.py:116-122 | the two-decimal rendering ends with the decimal separator and two cent digits |
| CoreUtils.RealBrMoneyMask | core/utils.py:116-122 | None gives the number 0; any value gives its two-decimal grouped rendering with '.' for thousands and ',' for decimals, which is the US rendering with ',' and '.' exchanged |
| CoreUtils.RegexThousandsDigits | core/utils.py:62-63 | the regex substitution on a digit run followed by a non-digit inserts a '.' before every group of three digits |
| CoreUtils.FormatarValorGrande | core/utils.py:62-63 | the result is the two-decimal rendering with '.' as thousands separator and '.' as the decimal point |
| CoreUtils.MoneyRenderingsAgree | core/utils.py:62-63 | the Brazilian money mask is the large-value rendering with its decimal point replaced by a comma, every other character equal |
| CoreUtils.CalcularIdade | core/utils.py:125-138 | age is the year difference, less one exactly when the birthday has not been reached this year; a missing birth date gives 0 |
| CoreUtils.CalcularIdadeCliente | core/utils.py:687-696 | agrees with `calcular_idade` on every birth date |
| CoreUtils.AgeOnBirthday | core/utils.py:125-138 | on the k-th birthday the age is k, on the day before it k-1 |
| CoreUtils.AgeMonotone | core/utils.py:125-138 | the age never decreases as the current date advances |
| CoreUtils.CheckRuleCount | core/utils.py:816-825 | a description is a check rule exactly when at least one of the four keywords occurs in it |
| CoreUtils.ExcludeAllCheckRulesSpec | core/utils.py:816-825 | the corrected filter keeps, in order, exactly the rules whose description names none of PEP, OBITO, NOME_MAE, NASCIMENTO |
| CoreUtils.ExcludeAllCheckRulesAsWritten | core/utils.py:816-825 | the loop as written, deleting by index once per keyword found; when no description names two keywords it succeeds with exactly the corrected filter |
| CoreUtils.ExcludeAllCheckRules | core/utils.py:816-825 | the corrected filter never returns more rules than it was given; what it keeps is stated by ExcludeAllCheckRulesSpec |
| CoreUtils.ExcludeAgreesOnSingleKeywords | core/utils.py:816-825 | when no description names two keywords the loop as written returns the corrected filter |
| CoreUtils.ExcludeAsWrittenDropsNeighbour | core/utils.py:816-825 | a description naming two keywords makes the loop as written delete its neighbour too, or raise when it is alone |
| CoreUtils.AlterarStatus | core/utils.py:208-302 | both statuses are set; a record is appended iff the last name differs, or the card/withdrawal branch gets ERRO_SOLICITACAO_SAQUE; portability REPROVADO also goes to the first portability row; an empty history raises |
| CoreUtils.AlterarStatusRepeat | core/utils.py:208-302 | repeating a status change adds nothing, except the withdrawal error of the card branches which is recorded again |
| CoreUtils.GetIntersection | core/utils.py:737-739 | the result holds exactly the elements in both sets |
| CoreTasks.FormatTelefone | core/tasks/__init__.py:475-486 | a missing phone gives ('000','000000000'); otherwise the area code has 3 characters (a zero and the first two digits) and the number 9 (the rest, zero-filled on the right, last nine kept) |
| CoreTasks.FormatTelefoneElevenDigits | core/tasks/__init__.py:475-486 | an eleven-digit phone is split without loss |
| CoreTasks.GenerateNomeArquivo | core/tasks/__init__.py:499-503 | the name starts with the operation and '_', ends with '.txt', and has 20 more characters than the operation when the sequence fits six digits |
| CoreTasks.NomeArquivoRoundTrip | core/tasks/__init__.py:499-503 | reading a generated name gives back the operation, the sequence and the day, month and year |
| CoreTasks.FailLines | core/tasks/__init__.py:348-359 | the failed-field message is empty exactly when every comparison passed |
| CoreTasks.FailLinesOnePerFailure | core/tasks/__init__.py:348-359 | the message has one line per failed comparison |
| CoreTasks.ProcessRegraAprovada | core/tasks/__init__.py:331-363 | boolean verdicts pass through; comparison lists approve iff every entry passes and list the failed fields; other dictionaries pass through; a failed NOME_MAE rule appends the element's message |
| CoreTasks.ProcessRegraAprovadaAsWritten | core/tasks/__init__.py:331-363 | the code as written raises exactly when both lists are present, and otherwise agrees with the corrected reading |
| CoreTasks.ProcessRegraAsWrittenRaisesOnBothLists | core/tasks/__init__.py:349-355 | a result with both lists raises as written, while the corrected reading rejects its failed field |
| CoreTasks.EvaluateRulesFlags | core/tasks/__init__.py:296-328 | `error` holds iff some ordinary rule failed, `erro_restritivo` iff some restrictive one did |
| CoreTasks.EvaluateRulesKey | core/tasks/__init__.py:303-320 | a description has a validation row after the loop iff it had one before or some rule carries it |
| CoreTasks.EvaluateRulesUntouched | core/tasks/__init__.py:303-320 | rows of descriptions no rule carries are left alone |
| CoreTasks.EvaluateRulesLastWins | core/tasks/__init__.py:303-320 | a description's row holds the verdict and message of the last rule carrying it |
| CoreTasks.ProcessRegrasContrato | core/tasks/__init__.py:296-328 | the flags are computed over the rules left after the check-rule exclusion |
| CoreTasks.ProcessRegrasIgnoresCheckRules | core/tasks/__init__.py:296-328 | no rule left after the exclusion names NOME_MAE, and a list of check rules raises no flag and writes no row |
| CoreTasks.SaveOnError | core/tasks/__init__.py:365-432 | an ordinary error moves a portability or free-margin contract to the desk; a main proposal records CHECAGEM_MESA_CORBAN iff its Corban has the desk flag and the last status is not one of three, else CHECAGEM_MESA_FORMALIZACAO |
| CoreTasks.SaveOnRestrictive | core/tasks/__init__.py:434-462 | a restrictive error records REPROVADA_FINALIZADA for cards and REPROVADA_POLITICA_INTERNA for portability and free margin, only when the last record differs |
| CoreTasks.SaveContractStatus | core/tasks/__init__.py:364-468 | without errors nothing changes; a restrictive card error leaves REPROVADA_FINALIZADA last, recorded at most once |
| CoreTasks.SaveRestrictiveIdempotent | core/tasks/__init__.py:434-462 | saving the same restrictive error twice records the reproval once |
| CoreTasks.Place | core/tasks/__init__.py:110-197 | reproved and other-product contracts are skipped; erroring ones go to the error list; others are pending only when a required document is missing |
| CoreTasks.ClassifyContracts | core/tasks/__init__.py:110-197 | the loop fails iff some contract's placement raises; the two lists together are no longer than the envelope |
| CoreTasks.ClassifyContractsSound | core/tasks/__init__.py:110-197 | every listed key belongs to a contract placed in that list, so reproved contracts are never listed |
| CoreTasks.ClassifyContractsComplete | core/tasks/__init__.py:110-197 | every erroring contract is in the error list and every pending one in the pending list |
| ClienteModel.Upper | core/models/cliente.py:300-308 | upper-casing keeps the length and maps each Latin-1 letter, the dotless i and the long s to its capital |
| ClienteModel.GetEstadoCivil | core/models/cliente.py:300-308 | the code is k+1 exactly when the upper-cased status is the k-th of SOLTEIRO, CASADO, DESQUITADO, DIVORCIADO, VIÚVO, and 9 exactly when it is none of them; a missing status raises |
| ClienteModel.EstadoCivilLowerCase | core/models/cliente.py:300-308 | 'solteiro' is coded 1 |
| ClienteModel.EstadoCivilMixedCase | core/models/cliente.py:300-308 | 'Casado' is coded 2 |
| ClienteModel.EstadoCivilAccented | core/models/cliente.py:300-308 | 'viúvo' is coded 5 |
| ClienteModel.EstadoCivilLongS | core/models/cliente.py:300-308 | 'ſolteiro', whose long s upper-cases to S, is coded 1 |
| ClienteModel.EstadoCivilDotlessI | core/models/cliente.py:300-308 | 'dıvorciado', whose dotless i upper-cases to I, is coded 4 |
| ClienteModel.EnderecoComplemento | core/models/cliente.py:310-312 | a missing complement reads as '', a present one as itself |
| ClienteModel.Renda | core/models/cliente.py:314-316 | a missing income reads as 0, a present one as itself |
| ClienteModel.NuCpf | core/models/cliente.py:318-320 | the bare CPF has no dash or dot and keeps every other character |
| ClienteModel.NuCpfUndoesMask | core/models/cliente.py:318-320 | the bare CPF of the CPF mask of eleven digits is those digits |
| ClienteModel.TelefoneDdd | core/models/cliente.py:322-339 | an empty phone gives ('',''); eleven characters split after the second; otherwise the parts around the first space, rejoining to the stripped phone; no space raises |
| ClienteModel.HasChanged | core/models/cliente.py:284-285 | a field has changed iff its value differs from the last saved one; a missing field raises |
| ClienteModel.Save | core/models/cliente.py:275-282 | saving fails iff another client (different key) has the same CPF; otherwise the snapshot becomes the current values |
| ClienteModel.SavedHasNoChanges | core/models/cliente.py:279-285 | after a successful save no field reads as changed |
| ClienteModel.SaveRejectsDuplicateCpf | core/models/cliente.py:275-277 | a second client with the same CPF cannot be saved; a client checked against itself can |
| CardSimulation.ParseBirth | contract/products/cartao_beneficio/Simulacao.py:104-106 | text is read as a date only when it is a day field of one or two digits, '/', a month field of one or two digits, '/', and exactly four year digits naming a real date from year 1; the year is the last four characters; anything else is an error |
| CardSimulation.ParseBirthUnpadded | contract/products/cartao_beneficio/Simulacao.py:104-106 | a date written d/m/YYYY without zero padding is read as the same date |
| CardSimulation.ParseBirthRoundTrip | contract/products/cartao_beneficio/Simulacao.py:104-106 | a date written dd/mm/YYYY is read back as the same date |
| CardSimulation.SimulationAge | contract/products/cartao_beneficio/Simulacao.py:96-115 | a date input gives the completed-years age; a text input fails exactly when it does not parse, else gives the age of the parsed date |
| CardSimulation.SimulationAgeSpellings | contract/products/cartao_beneficio/Simulacao.py:96-115 | the date and its dd/mm/YYYY spelling give the same age |
| CardSimulation.LastMatching | contract/products/cartao_beneficio/Simulacao.py:159-162 | the rule the loop keeps is absent iff no rule holds the age, and otherwise is a rule whose range holds it |
| CardSimulation.SelectAgeRule | contract/products/cartao_beneficio/Simulacao.py:143-171 | succeeds iff exactly one active rule holds the age; two or more give the duplicated-rule error, none the age-requirements error |
| CardSimulation.ValidGroups | contract/products/cartao_beneficio/Simulacao.py:262-274 | the groups offered are sorted ascending, all positive, and are the positive groups of the rule with their multiplicities |
| CardSimulation.PositiveOnlySpec | contract/products/cartao_beneficio/Simulacao.py:268-270 | the kept groups are exactly the input's positive ones |
| CardSimulation.CapLimit | contract/products/cartao_beneficio/Simulacao.py:228-233 | a limit above the rule's maximum becomes the maximum; one below the minimum is refused; otherwise it is kept |
| CardSimulation.Realizar | contract/products/cartao_beneficio/Simulacao.py:143-241 | success needs exactly one rule, the SIAPE parameter on SERPRO, the margin in range, the INSS species and its ages; the limit is the rounded margin times factor, capped, at least the minimum and positive; the withdrawal is the rounded percentage of it; the rule-age error never occurs |
| CardSimulation.LimitMonotoneInMargin | contract/products/cartao_beneficio/Simulacao.py:226 | with a non-negative factor a larger margin never gives a smaller rounded limit |
| CardSimulation.WithdrawalWithinLimit | contract/products/cartao_beneficio/Simulacao.py:240-241 | with a percentage between 0 and 100 the withdrawal value lies between zero and the limit |
| CardSimulation.ProcessarMargem | contract/products/cartao_beneficio/Simulacao.py:288-332 | validated iff the value lies in the product's margin range and the age in its age range; a value out of range gives the margin error |
| CardSimulation.RealizarMargemUnificada | contract/products/cartao_beneficio/Simulacao.py:334-392 | succeeds iff one rule holds the age and the capped sum of both rounded limits reaches the minimum; the limit is the cap or the sum; the withdrawal value is taken on the withdrawal limit alone |
| CardSimulation.UnifiedWithoutWithdrawal | contract/products/cartao_beneficio/Simulacao.py:375-388 | with no withdrawal margin the unified limit is the capped purchase limit |
| CardApiViews.Elegibilidade | contract/products/cartao_beneficio/api/views.py:1268-1318 | approved iff the account query was made, the account is NORMAL or LANCADO and the card status is one of the six allowed; the balance is reported exactly when approved; an unmade query shows 'not made' for both statuses |
| CardApiViews.CommittedTotal | contract/products/cartao_beneficio/api/views.py:1417-1457 | a committed contract is found iff some card or complementary-withdrawal contract is in one of the thirteen listed statuses; the total is the sum of their withdrawal values, None as zero, and is not negative for non-negative values |
| CardApiViews.CommittedAsWritten | contract/products/cartao_beneficio/api/views.py:1425-1457 | the loop as written, where a contract of another product re-reads the previous row: once a committed contract is found it stays found, and with non-negative withdrawal values the total never decreases |
| CardApiViews.CommittedAsWrittenAgrees | contract/products/cartao_beneficio/api/views.py:1425-1457 | when every contract is a card or complementary withdrawal, the loop as written gives the committed amount |
| CardApiViews.CommittedAsWrittenCountsTwice | contract/products/cartao_beneficio/api/views.py:1425-1434 | a representative-card contract after a committed withdrawal of 100.00 makes the loop count 200.00 |
| CardApiViews.AvailableAsWritten | contract/products/cartao_beneficio/api/views.py:1458-1472 | with committed contracts, the absolute difference of balance and committed amount; without, the balance; never negative |
| CardApiViews.AvailableAsWrittenGrowsPastBalance | contract/products/cartao_beneficio/api/views.py:1458-1469 | a balance of 100.00 with 300.00 committed reports 200.00 available, where the clamped difference is zero |
| CardApiViews.Available | contract/products/cartao_beneficio/api/views.py:1458-1472 | the balance less the committed amount, zero when that is negative, never above the balance |
| CardApiViews.AvailableAgreesWhenCovered | contract/products/cartao_beneficio/api/views.py:1458-1472 | when the balance covers the commitment the corrected and the written formula agree |
| CardApiViews.AvailableAntitone | contract/products/cartao_beneficio/api/views.py:1458-1472 | committing more never leaves more available |
| CardApiViews.WholeUnits | contract/products/cartao_beneficio/api/views.py:1517-1518 | `int()` of an amount truncates it toward zero to whole units |
| CardApiViews.FitNeedsFiftyOne | contract/products/cartao_beneficio/api/views.py:1498-1527 | a contract is fit for withdrawal only with at least 51.00 available, and an eligible, not finally reproved benefit card with that much is fit |
| CardApiViews.ConsultaLimiteSaque | contract/products/cartao_beneficio/api/views.py:1325-1529 | fails iff the age rule is not unique; switched off iff the parameter is inactive; otherwise available = the balance less the committed amount of the corrected loop, clamped at zero (the view as written takes the absolute difference and can count a row twice; see Findings), maximum = available, used + balance = global withdrawal limit, and fit iff the convenio allows it and some card contract is fit |
| CardApiViews.SimulationLimitAsWritten | contract/products/cartao_beneficio/api/views.py:721-751 | the limit as written is never negative for a non-negative balance (it is a distance, not a difference), and with no contract left it exists exactly when a row was carried |
| CardApiViews.SimulationLimitAsWrittenOffersExcess | contract/products/cartao_beneficio/api/views.py:738-749 | a balance of 100.00 and a pending withdrawal of 300.00 allow simulating 200.00, where the corrected limit is zero |
| CardApiViews.SimulationLimit | contract/products/cartao_beneficio/api/views.py:721-751 | fails exactly when the written loop fails; not negative, at most the balance for non-negative withdrawals, and equal to the written one when strictly between zero and the balance |
| CardApiViews.SimulacaoSaqueComplementar | contract/products/cartao_beneficio/api/views.py:690-828 | succeeds iff the convenio has the product, the limit is defined, some withdrawal is allowed and the value exceeds the minimum and does not exceed the limit; a missing product is its own error; a convenio allowing no withdrawal is refused as such unless the contract loop itself failed first, including when the client has no contracts and the limit was never bound |
| CardApiViews.IdentificacaoSeguro | contract/products/cartao_beneficio/api/views.py:2076-2097 | the plan codes followed by the account id; when shorter than 18 the account id is zero-padded so the whole is exactly 18, otherwise nothing is added |
| CardApiViews.IdentificacaoIsRjust | contract/products/cartao_beneficio/api/views.py:2083-2097 | the identification equals the plan codes followed by the account id right-justified with '0' to the remaining width |
| CardApiViews.ArrecadacaoPlano | contract/products/cartao_beneficio/api/views.py:2615-2807 | no plan of the contract is the benefit's plan iff 'no active plan'; cancelled iff there is one and the benefit status is 4; a collection needs a live benefit and counts one more |
| CardApiViews.CollectedIffPrata | contract/products/cartao_beneficio/api/views.py:2625-2629 | the first matching plan decides: a collection happens iff the benefit is live and that plan is PRATA |
| CardApiViews.CollectionCountIncreases | contract/products/cartao_beneficio/api/views.py:2766-2770 | the counter starts at 1 and grows by one per collection |
| ConvenioModel.CleanConvenio | contract/products/cartao_beneficio/models/convenio.py:106-110 | fails iff a physical signature is required and no minimum signing age is set |
| ConvenioModel.ConvenioStr | contract/products/cartao_beneficio/models/convenio.py:112-113 | the display 'pk-nome' is never empty |
| ConvenioModel.ConvenioStrSplits | contract/products/cartao_beneficio/models/convenio.py:112-113 | the first '-' of the display ends the key: before it is the key, after it the name |
| ConvenioModel.WithdrawalCheck | contract/products/cartao_beneficio/models/convenio.py:300-305 | a product that does not allow withdrawal passes; one that does, with both values set, passes iff the percentage and the minimum are positive |
| ConvenioModel.CleanProduto | contract/products/cartao_beneficio/models/convenio.py:299-315 | passes iff an allowed withdrawal has a positive percentage and minimum and an allowed instalment withdrawal has the processor code, minimum value and minimum count; the withdrawal error takes precedence |
| ConvenioModel.CleanWithoutWithdrawals | contract/products/cartao_beneficio/models/convenio.py:299-315 | a product allowing no withdrawal of either kind always passes |
| ConvenioModel.SaveProduto | contract/products/cartao_beneficio/models/convenio.py:317-325 | with both set, the total is minimum value times minimum count in whole reais truncated toward zero; otherwise the stored total is kept |
| ConvenioModel.SaveProdutoIdempotent | contract/products/cartao_beneficio/models/convenio.py:317-325 | saving again leaves the total unchanged |
| ConvenioModel.SaveProdutoExactOnWholeReais | contract/products/cartao_beneficio/models/convenio.py:317-325 | a whole-real minimum value gives exactly value times count |
| ConvenioModel.ValorTaxaProduto | contract/products/cartao_beneficio/models/convenio.py:295-297 | the rate accessor is the percentage divided by 100, and raises when the rate is unset |
| ConvenioModel.ProdutoStr | contract/products/cartao_beneficio/models/convenio.py:327-331 | the product's display name when its type has one, else the empty text |
| SimulationApi.RoundTermUp | simulacao/api/views.py:369-375 | the rounded term is a multiple of twelve, at least the term and less than twelve above it, and equals the term exactly when the term is already a multiple |
| SimulationApi.SelectedAsWritten | simulacao/api/views.py:377-390 | the query as written selects every row the rounded-term rule selects, and for a contract type other than 1 a row of the rounded term is selected only when that rule selects it too |
| SimulationApi.RatesAsWritten | simulacao/api/views.py:377-390 | the rates the query as written lists are exactly those of its selected rows |
| SimulationApi.ObterTaxaAsWritten | simulacao/api/views.py:377-390 | the query as written: absent exactly when no row is of the contract type or a type-1 row of the rounded term; otherwise the highest rate among those rows |
| SimulationApi.ObterTaxaAsWrittenIgnoresTerm | simulacao/api/views.py:377-390 | for contract type 1 the rate found as written is the same for every term |
| SimulationApi.ObterTaxaAsWrittenTakesOtherTerm | simulacao/api/views.py:377-390 | with type-1 rows for 84 months at 3.00 and 12 months at 1.80, a 12-month term gets 3.00 as written and 1.80 when only the rounded term's rows count |
| SimulationApi.ObterTaxa | simulacao/api/views.py:367-390 | absent exactly when no row has the rounded term and the contract type or type 1; otherwise the highest rate among those rows |
| SimulationApi.ObterTaxaByRoundedTerm | simulacao/api/views.py:369-390 | terms that round to the same multiple of twelve get the same rate |
| SimulationApi.MaxOf | simulacao/api/views.py:386-387 | the first row in descending rate order is a greatest element, absent for no rows |
| SimulationApi.PositiveTerms | simulacao/api/views.py:96-99 | exactly the positive terms of the options are priced |
| SimulationApi.RateForTerm | simulacao/api/views.py:100-108 | a non-zero rate from the caller is used as it is; otherwise the highest rate of the rows of the rounded term, of the contract type or type 1, and none when there is no such row |
| SimulationApi.ChooseRates | simulacao/api/views.py:96-123 | succeeds exactly when every positive term gets a non-zero rate (the caller's unless zero or absent, else the table's), listing those rates in term order; otherwise the rate error |
| SimulationApi.FilterRate | simulacao/api/views.py:66-109 | the filter rate is zero or a chosen rate, and no chosen rate exceeds it |
| SimulationApi.SimularContratoRates | simulacao/api/views.py:92-167 | no options gives the options error, a missing rate the rate error, and only positive-term options with rates reach the institution; without a positive term there is no request body |
| SimulationApi.GivenRateIsFilter | simulacao/api/views.py:100-109 | a positive rate from the caller is the rate of every term and the filter rate |
| SimulationApi.DefinirBody | simulacao/api/views.py:397-428 | no body exactly when there is no disbursement date; otherwise the body carries the term, rate and dates |
| SimulationApi.FilterAnswerAsWritten | simulacao/api/views.py:450-457 | as written the filter keeps every item or none, and an empty answer raises |
| SimulationApi.FilterAnswer | simulacao/api/views.py:450-457 | keeps exactly the items whose instalment count was requested |
| SimulationApi.FilterAnswerAsWrittenKeepsUnrequested | simulacao/api/views.py:450-457 | an unrequested 7-instalment item behind a requested 12-instalment one survives as written and is dropped by the per-item filter |
| SimulationApi.FiltersAgreeOnRequestedCounts | simulacao/api/views.py:450-457 | when every answered count was requested the two filters agree |
| SimulationApi.LastDueDateSpec | simulacao/api/views.py:484-488 | the last due date is n - 1 calendar months after the first, on the same day when the month has it, never before the first, and equal to it for one instalment |
| SimulationApi.FirstWithTerm | simulacao/api/views.py:493-499 | the first option with the term, or none when no option has it |
| SimulationApi.TransporItem | simulacao/api/views.py:458-517 | an option keeps the answered count and gets the last due date; it is within the age band exactly when its issue amount is at most the first same-term option's maximum, and undecided without either |
| SimulationApi.ListaTaxas | simulacao/api/views.py:519 | the listed rates are exactly the distinct chosen rates |
| SimulationApi.KeepPassing | simulacao/api/views.py:271-282 | keeps exactly the options that pass the death rule and end before the benefit |
| SimulationApi.VerificaOpcoes | simulacao/api/views.py:252-302 | without an IN100 answer the options are unchanged; with one, any option below the minimum raises, and otherwise it succeeds exactly when some option passes, keeping exactly the passing ones |
| SimulationApi.VerificaOutsideDeathRule | simulacao/api/views.py:271-282 | for a species outside the death rule exactly the options ending before the benefit are kept |
| SimulationApi.VerificaWithoutConcessionRefuses | simulacao/api/views.py:271-300 | without a concession date a client with an IN100 answer is refused |
| ContractViews.ValidateSimulationRules | contract/views.py:1486-1538 | the checks in order: a new instalment under 35.00, above, equal to, or (with a negative margin) above the typed one plus the margin is refused when an instalment was typed and the margin is a number; then a final balance below the product minimum; then the benefit's instalment-count rule; a valid verdict implies every applicable bound holds |
| ContractViews.NonNegativeMarginNeverBinds | contract/views.py:1516-1527 | any non-negative margin gives the same verdict as a zero margin |
| ContractViews.LowerInstalmentStillPasses | contract/views.py:1516-1538 | lowering an accepted new instalment, not below 35.00, keeps it accepted |
| ContractViews.ValidateNegativeMargin | contract/views.py:875-889 | refused exactly when the IN100 margin is negative and more than one contract is requested |
| ContractViews.NegativeMarginAntitone | contract/views.py:1056-1070 | a count accepted under a margin stays accepted for fewer contracts, and one contract is always accepted |
| ContractViews.HasCardInProgress | contract/views.py:419-458 | true exactly when some card contract of the client with a card record for the same registration, product and margin type is in a status other than the refused ones |
| ContractViews.RefusedCardDoesNotBlock | contract/views.py:438-448 | a card contract in a refused status never blocks a new request |
| ContractViews.WithinContractLimit | contract/views.py:462-472 | a non-empty token the client already holds, or fewer held contracts than the maximum, is within the limit, and nothing else is |
| ContractViews.AtMaximumOnlyRenews | contract/views.py:462-472 | at the maximum a new or missing token is refused |
| ContractViews.InitialStatus | contract/views.py:392-405 | card products start at the client's formalization, INSS products at the link sending, others without a history entry |
| ContractViews.CriarContrato | contract/views.py:410-489 | a card request colliding with a card contract in progress is refused first, then the contract limit; a created contract is in DIGITACAO with its product's initial history |
| ContractViews.MainFlags | contract/views.py:543-565 | one flag per proposal, set only for the first |
| ContractViews.OneMainProposal | contract/views.py:543-565 | a non-empty batch has exactly one main proposal, an empty one none |
| ContractViews.CreatePortRefin | contract/views.py:507-565 | no data, missing back-office parameters and a negative change are refused in that order; otherwise one proposal per entry with the first as main |
| ContractViews.CreatePort | contract/views.py:609-664 | no data and missing back-office parameters are refused; a negative-margin refusal surfaces as the generic error; otherwise one proposal per entry with the first as main |
| ContractViews.KpiValue | contract/views.py:1442-1475 | portability adds the updated balance, else the typed balance, else zero; refinancing its total; free margin its contract value; other products zero |
| ContractViews.SumContractsAppend | contract/views.py:1442-1475 | the sum over two lists of contracts is the sum of their sums |
| ContractViews.SumIgnoresOtherProducts | contract/views.py:1442-1475 | contracts of other products sum to zero |
| ContractViews.SumBoundsEach | contract/views.py:1442-1475 | with non-negative amounts, every contract's amount lies between zero and the sum |
| CoreAdmin.ByxContractId | core/admin.py:1308-1310 | the number is 'BYX9' and ten zero-filled digits from which the id reads back |
| CoreAdmin.RogadoCpf | core/admin.py:3693-3697 | the dash when the contract has no rogado (reading its CPF raises and the read-only field shows Django's empty value); empty without a CPF; otherwise dots at 3 and 7, a dash at 11, and the CPF recovered by dropping them |
| CoreAdmin.RogadoCpfAgreesWithFormatarCpf | core/admin.py:3693-3697 | on an eleven-digit CPF the column equals the shared CPF mask |
| CoreAdmin.RogadoTelefone | core/admin.py:3699-3703 | the dash when the contract has no rogado; empty without a phone; otherwise '(dd) ddddd-rest', from which the phone reads back |
| CoreAdmin.NovoUrlFormalizacao | core/admin.py:3705-3742 | portability hides the link exactly in the eleven waiting or refused statuses, free margin in its three, other products exactly when no link is stored; a missing product row fails |
| CoreAdmin.RefusedHidesLink | core/admin.py:3705-3731 | a refused or link-waiting portability or free-margin contract shows a dash |
| CoreAdmin.CardShowApprove | core/admin.py:3016-3048 | shown in the two approvable statuses, and in the endorsement statuses exactly for the endorsement desk on an automatic contract or a manual one whose last reserve has attachment and protocol |
| CoreAdmin.CardShowPendency | core/admin.py:3050-3066 | on endorsement statuses exactly for the endorsement desk; otherwise everywhere but the two Corban statuses |
| CoreAdmin.CardShowReprove | core/admin.py:3068-3089 | exactly in the six reprovable statuses, or in the three endorsement statuses for the endorsement desk |
| CoreAdmin.EndorsementOnlyForTheDesk | core/admin.py:3016-3089 | outside the desk no card button shows on an endorsement status; at the Corban endorsement pendency nobody pends and only the desk reproves |
| CoreAdmin.ShownStatus | core/admin.py:2924-2962 | a free-margin contract shows its own row's status and a portability the portability's; a portability with refinancing shows the refinancing's status exactly when the portability is at status 38 (or the two coincide) |
| CoreAdmin.PortabilityButtons | core/admin.py:2900-2980 | each button's enablement exactly: the customer-service group loses all, the back office all but reprove, automatic approval hides proposal approval, the Corban desk and pending recalculation disable more, waiting statuses disable pending |
| CoreAdmin.ApplyEndorsementAdjustment | core/admin.py:2987-2996 | a pending endorsement adjustment leaves only reprove as it was; any other status changes nothing |
| CoreAdmin.ButtonsMonotoneInRights | core/admin.py:2906-2920 | every button enabled for the back office is enabled for other operators, and the customer-service group sees none |
| CoreAdmin.FormsetsWithInlines | core/admin.py:2718-2814 | on the add page every inline in order; otherwise exactly the inlines of the contract's product |
| CoreAdmin.FormsetsKeepOrder | core/admin.py:2718-2814 | the inlines shown for two runs of declared inlines are the first run's followed by the second's, so the declared order is kept |
| CoreAdmin.ReserveInlineOnlyForManualCards | core/admin.py:2720-2732 | the margin-reserve form shows exactly on manually typed card contracts |
| ContractApiViews.ScoreBand | contract/api/views/__init__.py:938-1030 | scores 50..100 approve, -10..49 reject, -90..-40 are restrictive |
| ContractApiViews.ScoreGap | contract/api/views/__init__.py:938-1030 | scores -39..-11 and those outside -90..100 fall in no band |
| ContractApiViews.UnicoScore | contract/api/views/__init__.py:895-1030 | a divergence writes an unchecked validation with the error set; a finished analysis is checked exactly in the approved band, an approved score clears the error, a rejected one sets it only when the score validation returned no rules, a restrictive one sets the restrictive flag |
| ContractApiViews.ApprovedClearsError | contract/api/views/__init__.py:938-1030 | an approved score never leaves the error set; a score in the gap keeps the flags the score validation returned |
| ContractApiViews.ScoreErrorStep | contract/api/views/__init__.py:1059-1110 | a card with a score error goes to the corban desk (own desk outside production) or the formalization desk unless it is already there; a portability not at the corban desk or refused goes to the desk, only the main proposal records it and moves its refinancing row; no history raises |
| ContractApiViews.ScoreRestrictiveStep | contract/api/views/__init__.py:1111-1148 | a restrictive score cancels a card as REPROVADA_FINALIZADA and a portability as REPROVADA_POLITICA_INTERNA with the biometry note, each only once |
| ContractApiViews.ValidaStatusScore | contract/api/views/__init__.py:1058-1176 | the final status is the restrictive refusal when that flag is set and the card desk for a card error alone; without either flag only a clean main proposal is touched; at most two records are added |
| ContractApiViews.ValidaStatusScoreRepeat | contract/api/views/__init__.py:1059-1148 | repeating the update with a flag set changes nothing, except a card with both flags, which is sent back to the desk and refused again with two more records |
| ContractApiViews.ApprovedCardUntouched | contract/api/views/__init__.py:939-954 | a main card proposal with an approved score and a clean validation keeps its rows |
| ContractApiViews.PendBankData | contract/api/views/__init__.py:1241-1271 | the product row asks for new bank data with one record and the contract returns to typing; from the third 'pen' return the withdrawal is refused for a payment problem |
| ContractApiViews.RetornoSaque | contract/api/views/__init__.py:1180-1345 | a non-integer or unknown contract number is refused; the return is stored exactly for card and withdrawal products; a released withdrawal or an unknown status changes nothing |
| ContractApiViews.RetornoSaquePenThreshold | contract/api/views/__init__.py:1241-1271 | a 'rep' or 'pen' return refuses the withdrawal exactly when this makes three stored 'pen' returns or more; 'rep' never counts |
| ContractApiViews.RetornoSaqueApproves | contract/api/views/__init__.py:1225-1306 | an approved card return launches the instalment or lump-sum withdrawal and keeps the rows; an approved complementary withdrawal ends paid and released; the commission follows the back-office flag |
| ContractApiViews.GetContractFilters | contract/api/views/__init__.py:121-142 | exactly the non-empty parameters become filters, each with its value |
| ContractApiViews.FiltersIgnoreEmpty | contract/api/views/__init__.py:129-142 | no parameter means no filter, and an empty parameter is the same as none |
| ContractApiViews.ExtractTipoProduto | contract/api/views/__init__.py:1878-1889 | a missing or empty value is product 0; otherwise it is the integer read, and a non-integer raises |
| ContractApiViews.ExtractTipoProdutoRoundTrip | contract/api/views/__init__.py:1878-1889 | every product code written in decimal is read back |
| ContractApiViews.LastActive | contract/api/views/__init__.py:1527-1530 | the last active regularization row, none when no row is active |
| ContractApiViews.RegularizarPendenciaAverbacao | contract/api/views/__init__.py:1499-1575 | 200 exactly for a valid request on a card pending endorsement with an active pendency, 409 for a card not pending; on success only the last active pendency is closed with the given file and message, the card is regularized and the history records it |
| ContractApiViews.RegularizarTwiceConflicts | contract/api/views/__init__.py:1517-1525 | a pendency once regularized answers a second request with 409 |
| PortabilityApiViews.SetProductStatus | contract/products/portabilidade/api/views.py:134-145 | the status is written to the product row, and to the refinancing row of a portability with refinancing; a product without a row or a missing refinancing row raises |
| PortabilityApiViews.NextAfterApproval | contract/products/portabilidade/api/views.py:147-163 | a hand-typed card of an INSS convenio goes to the Dataprev check, everything else to the formalization desk |
| PortabilityApiViews.ApproveContract | contract/products/portabilidade/api/views.py:151-190 | the history gains the Corban approval and then the next status, which the product rows take; the contract goes to the desk |
| PortabilityApiViews.DeclineContract | contract/products/portabilidade/api/views.py:253-281 | the contract is cancelled and its product and refinancing rows refused by the Corban desk, recorded with the note |
| PortabilityApiViews.PendOne | contract/products/portabilidade/api/views.py:203-232 | every contract of the envelope goes to the desk with the requested pending flags; only the main proposal or a card is put on hold for documents and recorded |
| PortabilityApiViews.PendAll | contract/products/portabilidade/api/views.py:193-251 | the envelope is pended contract by contract, and one failure fails the whole action |
| PortabilityApiViews.AcaoCorban | contract/products/portabilidade/api/views.py:75-124 | no token or action is 400, an unknown contract 404; a 200 only for a contract at the Corban check with a known action, whose rows are then what that action writes |
| PortabilityApiViews.CorbanActsOnce | contract/products/portabilidade/api/views.py:90-97 | after an approval or a decline the contract has left the Corban check and every further action is refused |
| PortabilityApiViews.DenyProduct | contract/products/portabilidade/api/views.py:574-587 | only the product status changes, to refused by the formalization desk |
| PortabilityApiViews.PutProductOnHold | contract/products/portabilidade/api/views.py:744-752 | only the product status changes, to pending Corban documents |
| PortabilityApiViews.ProductUpdatesOverwrite | contract/products/portabilidade/api/views.py:574-752 | each update alone decides the product status, so repeating it or applying it after the other gives the same row |
| PortabilityApiViews.PendingFields | contract/products/portabilidade/api/views.py:961-981 | the text is empty exactly when no field is pending, and its length is the sum of the selected names |
| PortabilityApiViews.PendingFieldsRoundTrip | contract/products/portabilidade/api/views.py:961-971 | reading the text back in the fixed order gives exactly the pending flags it was written from |
| PortabilityApiViews.ValidaBeneficioRecalculo | contract/products/portabilidade/api/views.py:1402-1461 | approved exactly for a revalidated IN100 with a registered, unblocked species passing the species and death rules; refused and cancelled exactly for an unregistered species or a blocked benefit; otherwise the contract is untouched; a missing IN100 raises |
| FinancialPortability.Refuse | contract/products/portabilidade_refin/handlers/proposal_financial_portability.py:57-126 | only a row with a proposal key calls QiTech; a 2xx answer stores one return, marks the refusal successful and leaves the CCB waiting for a response; an already-cancelled answer also counts as refused; any other error keeps the CCB status and records a failed refusal; a malformed error body raises |
| FinancialPortability.RefuseRepeatable | contract/products/portabilidade_refin/handlers/proposal_financial_portability.py:67-102 | refusing again after a successful refusal succeeds again, and an already-cancelled answer leaves the row as the first refusal left it |
| FinancialPortability.RefuseFreeMargin | contract/products/portabilidade_refin/handlers/proposal_financial_portability.py:128-230 | succeeds exactly on a non-error answer; both a 2xx and an error answer with a title are stored and the refusal flag equals the result; an error answer without a title raises |
| FinancialPortability.AcceptError | contract/products/portabilidade_refin/handlers/proposal_financial_portability.py:250-276 | an error answer is always a failed acceptance; a refused acceptance (SSC000041) marks the portability and the contract log as refused and runs the refusal; any other code leaves the contract untouched |
| FinancialPortability.AcceptAsWritten | contract/products/portabilidade_refin/handlers/proposal_financial_portability.py:241-307 | on a 2xx answer the row records a successful acceptance while the result is the truthiness of the decoded body |
| FinancialPortability.AcceptAsWrittenMisreports | contract/products/portabilidade_refin/handlers/proposal_financial_portability.py:241-303 | a 2xx answer with an empty body is reported as a failure although the row records success |
| FinancialPortability.Accept | contract/products/portabilidade_refin/handlers/proposal_financial_portability.py:232-307 | on a 2xx answer the acceptance succeeds, stores one return with the requested status and moves the CCB to pending response only for that status; whenever QiTech was called the result equals the stored acceptance flag |
| FinancialPortability.AcceptVersionsAgree | contract/products/portabilidade_refin/handlers/proposal_financial_portability.py:295-307 | the corrected acceptance differs from the written one only for a 2xx answer with an empty body |
| FinancialPortability.GenerateMessage | contract/products/portabilidade_refin/handlers/proposal_financial_portability.py:355-367 | the message is the contract prefix followed by the text of the outcome kind |
| FinancialPortability.MessageKind | contract/products/portabilidade_refin/handlers/proposal_financial_portability.py:359-367 | submitted exactly for a success with a 2xx code, already submitted exactly for a success with any other code, exception exactly for a failure with an exception |
| FinancialPortability.MessagesDistinguish | contract/products/portabilidade_refin/handlers/proposal_financial_portability.py:355-367 | two equal messages for the same contract report the same outcome kind |
| FinancialPortability.Submit | contract/products/portabilidade_refin/handlers/proposal_financial_portability.py:331-395 | a 2xx answer or a proposal QiTech lists as pending response or acceptance is a successful submission storing one return; otherwise the row records a failed submission and keeps its CCB status |
| FinancialPortability.PendingResponseSetsCcb | contract/products/portabilidade_refin/handlers/proposal_financial_portability.py:244-337 | a successful submission or acceptance with the pending-response status leaves the CCB waiting for a response |
| Common.FirstIndex | contract/products/portabilidade_refin/api.py:266-286 | the position found holds the first element satisfying the filter, and none is found exactly when no element satisfies it |
| Calendar.NextDay | contract/products/portabilidade_refin/api.py:555-576 | the next day is a valid date exactly one ordinal day later |
| Calendar.NothingBetween | contract/products/portabilidade_refin/api.py:570 | no valid date lies strictly between a date and its next day |
| Calendar.OrdinalMonotone | contract/products/portabilidade_refin/api.py:570 | the day ordinal grows strictly with the calendar order |
| Calendar.IsoDateRoundTrip | contract/products/portabilidade_refin/api.py:389-574 | parsing the ISO rendering of a date gives the date back |
| Calendar.AddOneDay | contract/products/portabilidade_refin/api.py:555-576 | succeeds exactly on a well-formed date whose next day Python can hold, and renders a date one day later |
| Calendar.AddOneDayIso | contract/products/portabilidade_refin/api.py:555-576 | on the rendering of a date the helper gives the rendering of the next day |
| Calendar.DisbursementDate | contract/products/portabilidade_refin/api.py:385-396 | the disbursement date is today before 17h and the next day from 17h on |
| Calendar.DeltaMonths | contract/products/portabilidade_refin/api.py:305-307 | the whole months between the dates are the largest count whose shift of the start does not pass the end (the smallest, with the sign reversed, for an end before the start) |
| Calendar.RelDelta | contract/products/portabilidade_refin/api.py:305-307 | years and months split the whole months with the sign of the difference; the days left are never negative for a later end and never positive for an earlier one |
| Calendar.YearReached | contract/products/portabilidade_refin/api.py:305-309 | at least one year has passed exactly when the first anniversary of the start has been reached |
| Calendar.TenDaysPassed | contract/products/consignado_inss/api/views.py:274-277 | a positive year or month count or more than ten days is the same as the end lying more than ten days after the start |
| PortRefinApi.ValidateApproveRefuse | contract/products/portabilidade_refin/api.py:578-614 | a signed-in user outside the Corban Master group is refused first; otherwise the request passes exactly when the first port+refin contract with the token has its portability awaiting the Corban's recalculation approval |
| PortRefinApi.CancelContract | contract/products/portabilidade_refin/api.py:165-213 | the contract ends cancelled, the portability refused, the log gains one refusal record and the refinancing is cancelled; the CCB is cancelled unless the refusal sent to QiTech succeeds, which leaves it waiting for a response |
| PortRefinApi.CancelledLeavesDesk | contract/products/portabilidade_refin/api.py:578-614 | after a cancellation the same contract no longer passes the approve/cancel validation |
| PortRefinApi.GetRefinancing | contract/products/portabilidade_refin/api.py:272-316 | the first refinancing waiting for corrected bank data is used; without one or without an endorsement date the request is refused, and it is expired exactly when the endorsement's first anniversary has been reached |
| PortRefinApi.ProcessResponse | contract/products/portabilidade_refin/api.py:410-553 | succeeds exactly on a 2xx answer for a refinancing the lookup finds, moving it to waiting for disbursement with one new log record and one stored return; a failed lookup stores nothing |
| PortRefinApi.FailedResubmissionFinishes | contract/products/portabilidade_refin/api.py:451-480 | a failed resubmission records the failure and marks the refinancing finished exactly when QiTech reports the operation as opened |
| PortRefinApi.PaymentResubmission | contract/products/portabilidade_refin/api.py:215-251 | an unknown token is refused; success requires the found refinancing, a 2xx answer and a disbursement date, and writes exactly that refinancing's status, success flag and disbursement date plus one log record; an expired endorsement is refused as such |
| PortRefinApi.SendResubmission | contract/products/portabilidade_refin/api.py:365-440 | writing the disbursement date first does not change the refinancing the answer is processed for |
| PortRefinApi.ResubmitOnce | contract/products/portabilidade_refin/api.py:272-440 | after a successful resubmission of the only refinancing waiting for corrected bank data, the same request is refused as not endorsed |
| PortRefinApi.SecondResubmissionRefused | contract/products/portabilidade_refin/api.py:272-316 | once the contract found holds no refinancing waiting for corrected bank data, with endorsement dates unchanged, the request is refused as not endorsed and nothing is stored |
| PortRefinApi.DateWrittenFirst | contract/products/portabilidade_refin/api.py:365-440 | writing the disbursement date keeps the contract well formed and the lookup on the same refinancing, and a success afterwards is the success with the date added |
| ConsignadoInssViews.In100Of | contract/products/consignado_inss/api/views.py:81-84 | the IN100 row used is a stored row of the benefit, and there is none exactly when no stored row carries the benefit number |
| ConsignadoInssViews.CapToMargin | contract/products/consignado_inss/api/views.py:85-93 | with IN100 answered the margin becomes the IN100 margin and the instalment becomes the smaller of the requested instalment and that margin; a missing instalment raises; otherwise the request is untouched |
| ConsignadoInssViews.RealizaSimulacao | contract/products/consignado_inss/api/views.py:74-108 | the hub never sees an instalment above the IN100 margin; 200 exactly when the hub returned a simulation, whose body is answered; every other path answers 400 |
| ConsignadoInssViews.SimulationKeepsFittingInstalment | contract/products/consignado_inss/api/views.py:87-93 | an instalment already within the IN100 margin reaches the hub unchanged |
| ConsignadoInssViews.TooLate | contract/products/consignado_inss/api/views.py:274-277 | some whole year or month or more than ten days since the endorsement is the same as today lying more than ten days after it |
| ConsignadoInssViews.DocumentNumber | contract/products/consignado_inss/api/views.py:309-311 | the document number keeps every character of the CPF except dots and dashes, and holds none of them |
| ConsignadoInssViews.RefuseLate | contract/products/consignado_inss/api/views.py:274-286 | past the window nothing is sent and no status is recorded; the message says the proposal was refused only when the QiTech refusal went through |
| ConsignadoInssViews.ProcessAnswer | contract/products/consignado_inss/api/views.py:342-367 | a 200, 201 or 202 marks the free margin as awaiting disbursement with a status record; any other code stores QiTech's description as the reason, records no status and raises the support message |
| ConsignadoInssViews.SendToQitech | contract/products/consignado_inss/api/views.py:298-413 | the disbursement date written and sent is today before 17h and the next day from 17h on, next to the client's account and the document number without punctuation |
| ConsignadoInssViews.TryResubmit | contract/products/consignado_inss/api/views.py:241-296 | a missing endorsement date raises; past the ten-day window nothing is sent; a request is sent only for an endorsed margin within the window and a bank found in the bank table; success only on a 2xx answer, and every failure leaves the status history alone |
| ConsignadoInssViews.SendWithBankData | contract/products/consignado_inss/api/views.py:245-257 | a request is sent only when the client has bank data whose bank is in the bank table, and carries the disbursement date for the time of day; success only on a 2xx answer, which moves the margin to awaiting disbursement; a failure leaves the status history alone and a raised message is one of the view's own |
| ConsignadoInssViews.Respond | contract/products/consignado_inss/api/views.py:259-402 | a raised ValueError's message is answered verbatim with 400; any other raise answers the generic message with 400 and stores one more QiTech return |
| ConsignadoInssViews.Resubmit | contract/products/consignado_inss/api/views.py:241-262 | an unknown token fails outside the handled path; otherwise 200 exactly when a request went out and QiTech accepted it, only within ten days of the endorsement, leaving the margin awaiting disbursement; more than ten days always answers 400 |
| ConsignadoInssViews.ReplyTellsCause | contract/products/consignado_inss/api/views.py:386-402 | two failures answered with the same message stopped on the same raise |
| CoreApiViews.PickBestOffer | core/api/views.py:3076-3095 | the RCC card is offered with its margin when that margin is nonzero, not below the RMC margin and the product exists; else the consigned card with a positive RMC margin and its product; no offer exactly when neither holds |
| CoreApiViews.BestOfferIsLargest | core/api/views.py:3076-3095 | with both products and non-negative margins the offer carries the larger margin, and exists exactly when some margin is positive |
| CoreApiViews.EnsureList | core/api/views.py:3022-3026 | a single value becomes a one-element list and a list is kept |
| CoreApiViews.ProductTypeOfSingle | core/api/views.py:3034-3040 | for a single type, membership is equality |
| CoreApiViews.OfferAvailable | core/api/views.py:3042-3104 | the card offer is available exactly for a non-card product, a user who may create benefit cards, and a parameter that allows it |
| CoreApiViews.FormatCpf | core/api/views.py:3271-3272 | eleven characters come out in the masked 14-character layout |
| CoreApiViews.LookupCpf | core/api/views.py:3268-3303 | a masked CPF is kept and an eleven-character one is masked |
| CoreApiViews.MaskRoundTrip | core/api/views.py:3268-3303 | masking eleven digits keeps them in order, and masking again changes nothing |
| CoreApiViews.ProcessAttachments | core/api/views.py:838-1113 | each flag is set exactly when it was set or its attachment type is present; the personal document also by both sides of an identity card or driving licence; the additional document only in the portability view |
| CoreApiViews.AttachmentsOnlySet | core/api/views.py:850-1105 | more attachments never clear a flag |
| CoreApiViews.ClearPending | core/api/views.py:863-869 | uploading type '8', '6' or '16' clears exactly the matching pending flag |
| CoreApiViews.ValidarTelefone | core/api/views.py:2125-2181 | a missing field, unknown product or missing parameter is a server error; otherwise the phone is available exactly when its non-reproved contracts of the product's kind are fewer than the quota |
| CoreApiViews.QuotaOnlyFills | core/api/views.py:2134-2169 | one more contract never makes an exhausted phone available again |
| CoreApiViews.ReprovedDoesNotCount | core/api/views.py:2134-2161 | a reproved contract does not change the answer |
| CoreApiViews.CheckLinks | core/api/views.py:652-672 | the detail fails exactly when some contract without a pending selfie has a link at least 168 hours old or is signed, and the error is the first such contract's |
| CoreApiViews.SelfiePendingExempts | core/api/views.py:656-657 | contracts with a pending selfie never fail the check |
| ContractSerializers.CcbStatusLabel | contract/api/serializers/__init__.py:29-148 | codes 0 to 11 show their Portuguese label and any other code is shown unchanged |
| ContractSerializers.CcbLabelsDistinct | contract/api/serializers/__init__.py:29-42 | two codes with the same shown value are the same code |
| ContractSerializers.CcbLabelsFollowCodes | contract/api/serializers/__init__.py:29-42 | the table is indexed by the CCB status codes (pending response, cancelled, paid) |
| ContractSerializers.ValidateRegularization | contract/api/serializers/__init__.py:891-898 | the request passes exactly when it carries a non-empty message or a file, else fails with the fixed message |
| ContractSerializers.UrlFormalizacao | contract/api/serializers/__init__.py:335-380 | non-portability products expose the stored link; portability, port+refin and free margin expose it only with a returned IN100, a registered species, an unblocked benefit and a last status that is no refusal; a missing status record yields the error value |
| ContractSerializers.RefusedHidesLink | contract/api/serializers/__init__.py:358-372 | a refused portability-family contract never exposes its link |
| ContractSerializers.PortRefinBlockOf | contract/api/serializers/__init__.py:263-295 | the block exists exactly when both rows do; its status is the portability's until it is finished and then the refinancing's |
| ContractSerializers.BlockAgreesWithStatusProduto | contract/api/serializers/__init__.py:263-295 | the serializer's status matches the contract's product status for a portability with refinancing |
| ContractSerializers.PendingAccountId | contract/api/serializers/__init__.py:562-563 | free margin gives its bank data exactly when present, port+refin exactly when truthy (failing without the refinancing row), and other products an empty id |
| ContractAdmin.FilterFields | contract/admin.py:418-423 | the exported columns are exactly the declared columns the report wants, each still a declared column, and never more than were declared |
| ContractAdmin.FilterFieldsIdempotent | contract/admin.py:418-423 | filtering an already filtered column list changes nothing |
| ContractAdmin.SaldoDevedorNeverExported | contract/admin.py:306-423 | the declared balance column is in neither the front-office nor the back-office list, so no report ever exports it |
| ContractAdmin.YesNo | contract/admin.py:482-490 | a flag renders as 'SIM' exactly when it is set and as 'NÃO' otherwise |
| ContractAdmin.FlagCellAsWritten | contract/admin.py:897-950 | every flag column but the additional-document one is rendered; that one's method is misspelled and its raw flag is exported |
| ContractAdmin.FlagCellAsWrittenRawForAdditional | contract/admin.py:942-950 | the sent flag of the additional document comes out raw while its pending neighbour comes out as 'SIM' |
| ContractAdmin.FlagCell | contract/admin.py:897-950 | every flag column, the additional-document one included, renders as 'SIM'/'NÃO'; other columns are untouched |
| ContractAdmin.FlagColumnsRendered | contract/admin.py:306-419 | every document flag is in both reports and the signature and payment flags in the back-office one, each rendered as 'SIM' or 'NÃO' |
| ContractAdmin.Observacoes | contract/admin.py:952-968 | the note of the first refusal record in stored order; with no refusal record, the last record's note, or the empty text without records |
| ContractAdmin.Restricoes | contract/admin.py:970-975 | the concatenated notes of the unchecked validations: empty when all are checked, every note when none is, never longer than all notes together |
| ContractAdmin.RestricoesAppend | contract/admin.py:970-975 | the notes of two runs of validations are the first run's followed by the second's, so the column keeps the validations' order |
| ContractAdmin.RegrasValidadas | contract/admin.py:977-982 | 'NAO' exactly when some validation is unchecked, else 'SIM' |
| ContractAdmin.RestrictionsMatchValidation | contract/admin.py:970-982 | a fully validated contract has no restriction text, and any restriction text comes with 'NAO' |
| ContractAdmin.VlrPropostaAsWritten | contract/admin.py:597-605 | as written, a supplementary withdrawal without its row exports the empty text instead of 'N/A'; every other product as corrected |
| ContractAdmin.VlrPropostaAsWrittenHidesMissingRow | contract/admin.py:597-605 | a supplementary withdrawal without its row: the written column exports the empty text where the corrected one exports 'N/A' |
| ContractAdmin.VlrProposta | contract/admin.py:566-622 | 'N/A' exactly when the product's row is missing; a portability shows its updated balance when set, else the typed balance |
| ContractAdmin.VlrPropostaVersionsAgree | contract/admin.py:566-622 | the written and corrected proposal columns differ only for a supplementary withdrawal without its row |
| ContractAdmin.VlrLiberadoCliente | contract/admin.py:624-650 | '0' for a portability; the refinancing's change or the free margin's released amount, empty when zero; never a zero amount; empty for other products |
| ContractAdmin.MissingRowsAgree | contract/admin.py:566-650 | the proposal and released columns mark exactly the same missing rows 'N/A' for refinancing, free margin and cards |
| ContractAdmin.CardWithdrawalInBothColumns | contract/admin.py:606-650 | a card with a withdrawal shows that amount in both columns |
| RegularizacaoContrato.CheckFile | contract/models/regularizacao_contrato/__init__.py:115-146 | an attached file passes exactly when its extension is unset, empty or one of png/jpg/jpeg/tiff/pdf and its size is at most 20,000,000; the extension error comes first |
| RegularizacaoContrato.Save | contract/models/regularizacao_contrato/__init__.py:115-146 | saving keeps the record unchanged and succeeds exactly when the checked attachment (pending-item file first, else the regularization file) passes; with no file it always succeeds |
| RegularizacaoContrato.Delete | contract/models/regularizacao_contrato/__init__.py:148-151 | deleting is soft: the record becomes inactive with the deletion time set and both attachments kept, and it fails exactly when saving would |
| RegularizacaoContrato.NameWithExtension | contract/models/regularizacao_contrato/__init__.py:153-163 | the file name starts with the attachment's name and ends with a dot and its extension, 'None' when unset |
| RegularizacaoContrato.ExtensionRecovered | contract/models/regularizacao_contrato/__init__.py:153-163 | the text after the last dot of the name with extension is the extension, whatever dots the name holds |
| RegularizacaoContrato.IsStoredOnS3 | contract/models/regularizacao_contrato/__init__.py:165-187 | an attachment counts as stored on S3 exactly when its URL contains 's3.amazonaws.com'; an unset URL raises |
| RegularizacaoContrato.ObjectKey | contract/models/regularizacao_contrato/__init__.py:189-207 | a key exists exactly when the URL contains '.com/', otherwise the split raises; the key starts right after the first '.com/', holds no '?', and ends at the end, at a '?' or at the next '.com/' |
| RegularizacaoContrato.BucketName | contract/models/regularizacao_contrato/__init__.py:209-227 | a bucket exists exactly when the URL has a third '/'-separated part (the host); the bucket is the host's prefix up to its first '.', and holds no '.' |
| RegularizacaoContrato.S3UrlRoundTrip | contract/models/regularizacao_contrato/__init__.py:165-227 | the URL of an object in a bucket counts as stored on S3 and gives back exactly that key and that bucket |
| CustomAuthModels.Hierarchy | custom_auth/models.py:214-220 | the chain starts with the Corban, each entry's parent is the next entry, every entry is stored, and it ends at the first Corban without a parent |
| CustomAuthModels.SelfParentNeverEnds | custom_auth/models.py:214-220 | the chain of a Corban that is its own parent never ends, whatever the bound |
| CustomAuthModels.Children | custom_auth/models.py:222-234 | exactly the stored Corbans whose parent is the given one |
| CustomAuthModels.Subordinates | custom_auth/models.py:222-234 | a self-parented Corban has no subordinates; any other is listed first, and no self-parented Corban is ever listed |
| CustomAuthModels.SubordinatesBelow | custom_auth/models.py:222-234 | every Corban listed as a subordinate is the Corban itself or a stored Corban |
| CustomAuthModels.CorbanClean | custom_auth/models.py:239-262 | a Corban passes exactly when no other Corban holds its CNPJ, it is not its own parent, and a grade above the master has a parent; the error is one of the three messages |
| CustomAuthModels.Walk | custom_auth/models.py:535-562 | the walk only grows the visited set, returns nothing for a visited user, marks the supervisor visited, and finds only stored users of the supervisor's Corban |
| CustomAuthModels.GetSubordinates | custom_auth/models.py:520-533 | a store owner sees every user of its Corban |
| CustomAuthModels.UserClean | custom_auth/models.py:592-603 | a user passes exactly when its level is unset, zero, at least the store owner's, or it has a supervisor; the error names the level |
| CustomAuthModels.IsFeatureActive | custom_auth/models.py:671-677 | a missing toggle is inactive; an active answer comes from a stored active toggle of that name |
| CustomAuthViews.SelectedLevel | custom_auth/views.py:445-464 | a non-empty run of digits selects its value; an absent or malformed level selects the typist level |
| CustomAuthViews.UsersAtLevel | custom_auth/views.py:445-464 | exactly the Corban's users at the level, in stored order |
| CustomAuthViews.SupervisorChoices | custom_auth/views.py:445-464 | the blank option comes first, then exactly the Corban's users one level above the selected one |
| CustomAuthViews.MalformedLevelOffersTypistSupervisors | custom_auth/views.py:445-464 | a level that is not all digits offers the same list as no level at all |
| CustomAuthViews.FileKey | custom_auth/views.py:341-356 | the four supported kinds give a key starting with the user's folder and ending with the extension; any other kind raises with its code |
| CustomAuthViews.FileKeyFolder | custom_auth/views.py:341-356 | the key's first path piece is the user's id |
| CustomAuthViews.FileKeysDistinct | custom_auth/views.py:341-356 | two different supported kinds never share a key |
| CustomAuthViews.ContentType | custom_auth/views.py:358-364 | only jpg, jpeg and png are accepted, png alone as image/png; anything else raises naming the extension |
| CustomAuthViews.DocumentFields | custom_auth/views.py:366-377 | the selfie URL goes to the selfie field, the front's and the licence's to the attachment field, and the back clears the back field |
| CustomAuthViews.ChangePassword | custom_auth/views.py:154-186 | the password changes exactly when all four fields are present, the confirmation matches, the token is known and the old password authenticates; missing fields answer 400 first and an unknown token 404 |
| CustomAuthAdmin.LabelOf | custom_auth/admin.py:119-127 | the label shown is one paired with the code, and none exactly when the code is not in the table |
| CustomAuthAdmin.CodeOf | custom_auth/admin.py:95-107 | the code read back is one paired with the label, and none exactly when the label is not in the table |
| CustomAuthAdmin.ExportImportRoundTrip | custom_auth/admin.py:95-127 | with unique codes and labels, importing an exported label gives back its code |
| CustomAuthAdmin.BeforeImportRow | custom_auth/admin.py:109-115 | only present, non-empty level and state cells are converted, each through its own table |
| CustomAuthAdmin.ExportedRowImports | custom_auth/admin.py:95-127 | a row exported from a user imports back to the user's level and state codes |
| CustomAuthAdmin.TrueFalse | custom_auth/admin.py:146-153 | a flag exports as 'True' exactly when set and as 'False' exactly when not |
| CustomAuthAdmin.ImportSupervisor | custom_auth/admin.py:131-144 | only the row's user can change, and only to the named stored supervisor of the same Corban; a dry run changes nothing |
| CustomAuthAdmin.ImportSupervisors | custom_auth/admin.py:131-144 | the import keeps every user and every user's Corban, and a dry run changes nothing |
| CustomAuthAdmin.ImportKeepsCorban | custom_auth/admin.py:131-144 | every user the import changed ends with a stored supervisor of the same Corban |
| CustomAuthAdmin.AddProduct | custom_auth/admin.py:308-341 | the product is added exactly when the user has a Corban offering it and lacks it; otherwise nothing changes, and a user without a Corban gets the missing-Corban message |
| CustomAuthAdmin.ReadonlyFields | custom_auth/admin.py:437-458 | the five base fields always come first, with the five identity fields added exactly when the user is in none of Master, Corban Master and Backoffice |
| Averbadoras.SlotOf | handlers/neoconsig.py:345-388 | the purchase margin reads the purchase amount, service code, payroll code and reserve; the withdrawal margin the withdrawal ones; the single margin the current margin and the plain fields |
| Averbadoras.SlotsToReserve | handlers/neoconsig.py:345-388 | a unified card reserves its purchase then its withdrawal margin, a purchase, withdrawal or single-margin card reserves that one margin, and any other type reserves nothing |
| Averbadoras.StoreReserve | handlers/neoconsig.py:226-236 | the reserve number lands in the reserve field of the margin type's slot and every other slot and the margin type stay as they were |
| Averbadoras.ReserveLoopAsWritten | handlers/zetra.py:693-768 | the loop only ever cancels margins it reserved, it reserves only requested margins, and the record it returns is the last request's |
| Averbadoras.ReserveLoop | handlers/zetra.py:693-768 | stopping at the first failure: the run succeeds exactly when every request succeeds, a failed run cancels every margin it reserved, a successful one cancels none |
| Averbadoras.ReserveLoopReservesAll | handlers/zetra.py:693-768 | a successful run reserved exactly the requested margins, in request order |
| Averbadoras.UnifiedReserveAsWritten | handlers/facil.py:387-471 | for a unified card the loop as written reports success exactly when the withdrawal request succeeds, reserves each margin whose request succeeded, and holds both, the withdrawal alone, or nothing |
| Averbadoras.AsWrittenRollsBackPurchase | handlers/zetra.py:742-753 | a failed withdrawal request cancels the purchase margin reserved before it, leaving nothing held |
| Averbadoras.AsWrittenKeepsWithdrawalAlone | handlers/facil.py:387-471 | a failed purchase request does not stop the loop: the withdrawal margin is reserved and held alone and the run reports success |
| Averbadoras.UnifiedAllOrNothing | handlers/zetra.py:693-768 | with the loop stopping at the first failure, a unified reservation succeeds exactly when both requests do, holding both margins, and otherwise holds none |
| Zetra.MarginLabel | handlers/zetra.py:581-594 | a card product with the purchase or withdrawal service code gets one of the four margin labels, anything else the empty label |
| Zetra.LabelIdentifiesMargin | handlers/zetra.py:581-594 | a non-empty label determines the product and service code it came from |
| Zetra.ReserveDispatch | handlers/zetra.py:596-651 | a missing customer or card is refused with its message, otherwise a unified card takes the unified path and any other card the single one |
| Zetra.SingleReserveAmount | handlers/zetra.py:796-803 | the amount is the first truthy of purchase and withdrawal margin, else the current margin, and a missing current margin raises |
| Zetra.MarginsOnFolhas | handlers/zetra.py:553-579 | the rows kept are exactly the margins with a non-zero amount on an active payroll code |
| Zetra.SelectMargins | handlers/zetra.py:528-579 | no active sub-órgão refuses the query, one keeps the first margin on its code, several keep the non-zero margins on active codes, and an empty selection is the no-margin error |
| Zetra.ZeroMarginKeptForSingleOrgan | handlers/zetra.py:539-579 | a zero margin is returned for a single active sub-órgão but refused when several are active |
| Zetra.CancelReserve | handlers/zetra.py:854-870 | the cancellation sends the purchase reserve for 'compra', the withdrawal reserve for 'saque', and the single reserve otherwise |
| Zetra.CancelSendsStoredReserve | handlers/zetra.py:854-870 | a cancellation naming the margin that was just reserved sends back the stored reserve number |
| Zetra.QtaParcelaField | handlers/zetra.py:241-242 | the instalment count is sent only for the DIGIMAIS origin, and a missing count there raises |
| Facil.Matching | handlers/facil.py:74-82 | the matches are exactly the registrations with the requested number, and an item without the number key makes the filter raise |
| Facil.ScanAsWritten | handlers/facil.py:98-126 | every registration on an active payroll code is kept, whatever its consignment query answers, unless a query raises |
| Facil.ConsultaMatriculaAsWritten | handlers/facil.py:41-138 | a code comes with no rows and a success with some, and the active-consignment code is never returned |
| Facil.ScanRegistrations | handlers/facil.py:98-129 | as intended: the kept registrations are exactly those on active codes, none of them has an active consignment, and an active-consignment result names a registration that has one |
| Facil.ConsultaMatricula | handlers/facil.py:41-138 | the lookup returns only registrations with the requested number on active codes without an active consignment, and reports an active consignment only when one exists |
| Facil.LookupVersionsAgree | handlers/facil.py:41-138 | with no active consignment on any active code, the written and the corrected lookups agree |
| Facil.AsWrittenMissesActiveConsignment | handlers/facil.py:107-126 | a registration whose payroll code has a consignment of non-zero amount is returned as valid, where the corrected lookup reports the active consignment |
| Facil.ConsignmentOf | handlers/facil.py:168-217 | an answer with a description is an error pair, any other answer yields the seven consignment fields in order, and a missing key raises |
| Facil.SingleSlot | handlers/facil.py:355-386 | a card that is not unified reserves its one typed margin, and any other type leaves the amount unbound and raises |
| Facil.StoreSingleReserve | handlers/facil.py:500-510 | the reserve number goes to the purchase or withdrawal field for those types, and to the single field for every other type |
| Facil.CancelTargets | handlers/facil.py:539-638 | a named margin cancels its own reserve, an unnamed cancellation of a unified card cancels both, and otherwise the single reserve is cancelled |
| Facil.UnifiedCancelMirrorsReserve | handlers/facil.py:539-638 | an unnamed cancellation of a unified card sends the payroll code and reserve of each margin the reservation used, in the same order |
| Facil.SingleCancelAfterReserve | handlers/facil.py:500-510 | after a single reservation, an unnamed cancellation sends the stored number except for purchase and withdrawal cards, whose number only a named cancellation reaches |
| Serpro.FolhaNumber | handlers/serpro.py:140-145 | converting the registration's payroll code succeeds exactly when the key is present and holds a number, and yields an int |
| Serpro.FilterAsWritten | handlers/serpro.py:137-145 | the generator as written succeeds exactly when every registration's payroll code converts to a number, and keeps only registrations whose converted number is among the stored codes |
| Serpro.RegistrationsAsWritten | handlers/serpro.py:109-179 | a failed request is 'Erro_Consulta', an empty result after a good request is 'SubOrgao_Vazio', and found registrations also come back with 'Erro_Consulta' |
| Serpro.RegistrationsAsWrittenNeverFind | handlers/serpro.py:137-150 | the int payroll number is never among the text codes, so no registration is ever returned |
| Serpro.Filter | handlers/serpro.py:137-145 | as intended: the kept registrations are exactly those whose payroll code is an active one, and a registration without the key raises |
| Serpro.Registrations | handlers/serpro.py:109-179 | as intended: registrations come back exactly when the request succeeded, no item lacks the key and one sits on an active code, and they are exactly those |
| Serpro.RegistrationFoundOnlyWhenCorrected | handlers/serpro.py:137-150 | a registration on the only active payroll code is missed as written and found by the corrected filter |
| Serpro.VinculoLabel | handlers/serpro.py:287-290 | link type 'S' is shown as 'Servidor', 'P' as 'Pensionista', any other code as it is |
| Serpro.MargemOrZero | handlers/serpro.py:294 | a missing or empty margin becomes '0.00', and a present one is kept |
| Serpro.VerdictKeepsAdmitted | handlers/serpro.py:214-285 | the filters in the loop's order keep a row exactly when it passes all of them, and only a failing conversion aborts |
| Serpro.ScanMargins | handlers/serpro.py:200-318 | every returned margin comes from a row passing every filter, and without an aborting row every such row's margin is returned |
| Serpro.MarginsConsult | handlers/serpro.py:181-318 | an answer with a description is the error pair, raising without a return code; otherwise every margin carries the answer's name, a non-empty amount and the requested registration |
| Serpro.RequestedNumberNarrows | handlers/serpro.py:214-215 | a requested registration number keeps a row exactly when the unrestricted query keeps it and the row carries that number |
| Serpro.CancelOutcome | handlers/serpro.py:387-432 | with a card, the record holds its reserve and is cancelled exactly when the return code is '0000'; without one, the hub's description and code are recorded |
| Neoconsig.WithBlanks | handlers/neoconsig.py:156-166 | every listed margin keeps its own keys and gains the six blank keys, which are blank whatever it held |
| Neoconsig.MarginsConsult | handlers/neoconsig.py:133-180 | a described error is returned as such, raising without a return code; a list of objects becomes one row per item with the blank keys; any other answer is reported with code '500' |
| Neoconsig.MarginsToReserve | handlers/neoconsig.py:345-388 | the margins to reserve are those of the shared slot selection: purchase then withdrawal for unified, else the typed slot |
| Neoconsig.CancelMirrorsReserve | handlers/neoconsig.py:438-466 | the cancellation sends, in order, the registration and the reserve of each margin a reservation runs through |
| Neoconsig.MarginReserve | handlers/neoconsig.py:205-236 | a described error is recorded, a missing contract id is recorded with code '500', and otherwise the id becomes the reserve of the margin type's slot alone |
| Neoconsig.WithSlot | handlers/neoconsig.py:285-301 | writing a slot sets exactly that slot and leaves the others and the margin type alone |
| Neoconsig.MarginReserveConfirm | handlers/neoconsig.py:258-336 | a described error is recorded; a missing id raises; otherwise the type's slot takes the margin's amount and service code, the agreement code and the confirmed id, and the other slots stay |
| Neoconsig.ReserveAndConfirmAsWritten | handlers/neoconsig.py:390-422 | a reserve error is returned at once, and the loop never cancels anything |
| Neoconsig.ReserveAndConfirm | handlers/neoconsig.py:390-422 | with the second test on the confirmation: a confirmation is returned only when every reserve and confirmation succeeded, all margins then confirmed in order, and a cancellation only with an error |
| Neoconsig.FailedConfirmationCancels | handlers/neoconsig.py:411-420 | the first failed confirmation cancels the reserves and is returned, after confirming the margins before it |
| Neoconsig.FailedPurchaseConfirmationHidden | handlers/neoconsig.py:411-422 | as written, a failed purchase confirmation followed by a good withdrawal one is reported as a success with nothing cancelled |
| In100Cartao.ConsultaBeneficio | handlers/in100_cartao.py:105-120 | a technical error exactly when the request failed or the benefit list is empty; otherwise the decoded answer unchanged |
| In100Cartao.MarginRows | handlers/in100_cartao.py:151-239 | a benefit-card contract lists only the RCC margin, a payroll-card contract only the card margin, no contract both; another product or a missing amount raises |
| In100Cartao.LabelFollowsMargin | handlers/in100_cartao.py:185-239 | every row carries the label of the margin it reports |
| In100Cartao.CheckDigit | handlers/in100_cartao.py:245-248 | the check digit is the account's last character, or empty for a missing or empty account |
| In100Cartao.CheckDigitOfAccount | handlers/in100_cartao.py:245-248 | splitting an account number with a digit appended gives back that digit |
| In100Cartao.ReserveAccount | handlers/in100_cartao.py:465-471 | without an INSS check digit the client's bank account is sent, otherwise the INSS account and its digit |
| In100Cartao.WithdrawalFlags | handlers/in100_cartao.py:288-294 | the instalment flag follows the instalment option alone, the withdrawal flag is set by either option, and instalments imply a withdrawal |
| In100Cartao.NextStatus | handlers/in100_cartao.py:296-305 | the corban desk only when the convênio sends contracts there outside production, else the formalisation desk |
| In100Cartao.CompareMargin | handlers/in100_cartao.py:307-430 | an equal margin moves the contract on; a higher one re-simulates; a lower one within the allowed reduction re-simulates, caps the withdrawal at the new maximum and, for an instalment withdrawal, takes the re-simulated instalment terms, while a larger drop cancels and rejects; the terms change nowhere else; a missing margin or allowance, or a zero current margin, raises |
| In100Cartao.ComparisonSettles | handlers/in100_cartao.py:307-345 | a contract moved on with the new margin is just moved on again by the same answer |
| In100Cartao.ReductionThreshold | handlers/in100_cartao.py:346-430 | with 100.00 current and 10% allowed, 90.00 is accepted and 89.99 rejected |
| In100Cartao.ReservaMargem | handlers/in100_cartao.py:517-556 | a reservation is recorded exactly on success code BD, with the operation hash; otherwise the message, else the first listed error, is stored; with no message and no errors it raises |
| Banksoft.MaritalStatus | handlers/banksoft.py:120-143 | each status maps to its Banksoft name from both spellings, single only from "Solteiro(a)", anything else is undefined; both directions |
| Banksoft.MarginAndOrgao | handlers/banksoft.py:151-250 | the margin is the sum of the margins the type covers, unified summing withdrawal and purchase; the fallback órgão 999 exactly for a manual contract or when every payroll code is blank, otherwise the payroll code of the reserved margin |
| Banksoft.ProposalFor | handlers/banksoft.py:170-222 | a plain credit card exactly for a card without withdrawal or instalments, instalments override to the instalment type, a complementary withdrawal always has its own type; only non-credit proposals send the account and an instalment count (the count or 1); other products fail |
| Banksoft.SendsInstalments | handlers/banksoft.py:453-458 | the instalment list is sent exactly when the withdrawal is in instalments |
| Banksoft.Instalments | handlers/banksoft.py:459-475 | n instalments numbered 1..n, each on a valid date |
| Banksoft.InstalmentsMonthly | handlers/banksoft.py:459-475 | instalment i falls i months after the first one, one month after its predecessor, never later in the month and on the same day when the month allows |
| Banksoft.EarlyDayKeptEveryMonth | handlers/banksoft.py:459-475 | a first due day up to the 28th is kept in every month |
| Banksoft.DueDateAsWritten | handlers/banksoft.py:29-48 | the date falls in the month after today, on a day no later than today's or the requested one; a day below 1 raises |
| Banksoft.DueDate | handlers/banksoft.py:29-48 | the requested day of next month exactly when that month has it, else the month's last day |
| Banksoft.DueDateAgreement | handlers/banksoft.py:38-39 | the written and the intended due dates agree exactly when the requested day is not after today's, or today's day is already next month's last |
| Banksoft.DueDateCappedAtToday | handlers/banksoft.py:38-39 | on 5 January 2024 a card due on the 10th gets 5 February as written and 10 February as intended |
| Banksoft.ReturnStatus | handlers/banksoft.py:536-553 | 200 exactly when the answer holds proposal number, status and message and the status is "true"; 400 otherwise |
| Banksoft.BankNumber | handlers/banksoft.py:1149-1151 | only digits are sent, and every digit of the stored code is kept |
| Banksoft.BankNumberOfDigits | handlers/banksoft.py:1149-1151 | a code of digits only is sent unchanged |
| Banksoft.BankNumberIdempotent | handlers/banksoft.py:1149-1151 | cleaning twice is cleaning once |
| DockFormalizacao.PhoneSplit | handlers/dock_formalizacao.py:99-106 | area code and number are digits, at most two in the area code, and together they are the phone's digits with a leading trunk '0' dropped |
| DockFormalizacao.PhoneSplitRoundTrip | handlers/dock_formalizacao.py:99-106 | an area code and number written plainly, with the trunk '0' or as "(dd) number" split back into the two |
| DockFormalizacao.AdjustmentType | handlers/dock_formalizacao.py:812-821 | one of 21036/21038/20092/20094; the DIGIMAIS pair exactly on that deployment, the complementary id of a pair exactly for a complementary withdrawal |
| DockFormalizacao.AdjustmentTypeDetermines | handlers/dock_formalizacao.py:812-821 | two withdrawals get the same id exactly when deployment and complementary-ness agree |
| DockFormalizacao.DueDay | handlers/dock_formalizacao.py:267-275 | the parsed due day, or 10 when it is missing or unreadable |
| DockFormalizacao.DueDayOfStoredDay | handlers/dock_formalizacao.py:267-275 | a day stored as its decimal text is read back as itself |
| DockFormalizacao.Reschedule | handlers/dock_formalizacao.py:886-897 | a run is rescheduled, with the count one higher, exactly when it raised below the limit |
| DockFormalizacao.RunsBounded | handlers/dock_formalizacao.py:886-1176 | a chain makes at most limit - count + 1 runs, every run but the last raised, and the last succeeded or used the last retry |
| DockFormalizacao.AlwaysRaisingRuns | handlers/dock_formalizacao.py:886-1176 | a task that always raises runs exactly limit - count + 1 times |
| DockFormalizacao.RetryTotals | handlers/dock_formalizacao.py:891-1170 | an always-failing adjustment runs three times and an always-failing instalment launch five |
| DockFormalizacao.Launch | handlers/dock_formalizacao.py:1056-1060 | the task stops exactly when the stored withdrawal return is 'rep'; it launches exactly when there is another return and the call does not raise |
| DockFormalizacao.RepEndsChain | handlers/dock_formalizacao.py:1056-1176 | a 'rep' return ends the launch chain at that run |
| Brb.DocumentType | handlers/brb.py:54-57 | an identity card is sent as CARTEIRA_IDENTIDADE and exactly it; every other document as CARTEIRA_MOTORISTA |
| Brb.BankCode | handlers/brb.py:81 | the first three characters of the stored bank code, or all of a shorter one |
| Brb.BankCodeOfLabelled | handlers/brb.py:81 | a stored code led by a three-character bank number sends that number |
| Brb.InstalmentCount | handlers/brb.py:146-159 | the contracted count for a withdrawal in instalments, else 1; products other than cards and complementary withdrawals fail |
| Brb.PollStep | handlers/brb.py:219-264 | awaiting payment reschedules with the next count below five and gives up at five; paid reads the withdrawal row of a card or complementary-withdrawal product and launches the instalments exactly when it is an instalment withdrawal, the adjustment otherwise; another product leaves the row unbound and a missing row raises; a 200 answer without a situation raises; anything else is only logged |
| Brb.StuckTransferPolledSixTimes | handlers/brb.py:219-243 | a transfer that stays awaiting payment is polled six times and the sixth poll gives up |
| Brb.PollsStopWhenSettled | handlers/brb.py:219-243 | a poll chain makes one to six polls, all but the last awaiting payment, and the last settled or used the last retry |
| Brb.DossierFiles | handlers/brb.py:284-307 | exactly the attachments of the five sent types are named, each by its file name |
| Brb.FolderOfFileName | handlers/brb.py:292-307 | with folder names free of '/', the text before the first '/' of a file name is the envelope's folder for a selfie and the contract's otherwise |
| WebhookQitech.TraduzirCampo | handlers/webhook_qitech/__init__.py:320-339 | a recognised term gets one of the seven Portuguese labels; anything else is handed to the translator with its underscores turned into spaces |
| WebhookQitech.TranslationIgnoresUnderscores | handlers/webhook_qitech/__init__.py:322 | a term and its form with underscores replaced by spaces translate alike |
| WebhookQitech.SnakeCaseNotPayer | handlers/webhook_qitech/__init__.py:322-330 | a term that reads "not payer" in any of its listed capitalisations once underscores become spaces, such as "not_payer", translates to NÃO PAGADOR |
| WebhookQitech.SnakeCaseNotFound | handlers/webhook_qitech/__init__.py:322-336 | a term that reads "not found" in any of its listed capitalisations once underscores become spaces, such as "NOT_FOUND", translates to NÃO ENCONTRADO |
| WebhookQitech.RejectInexistentBenefit | handlers/webhook_qitech/__init__.py:509-557 | a portability or free-margin contract whose product waits in one of the three benefit statuses is rejected with a status record; only a portability has its contract cancelled, and only one with refinancing has the refinancing rejected; nothing else changes |
| WebhookQitech.InexistentBenefitIdempotent | handlers/webhook_qitech/__init__.py:509-557 | a repeated answer rejects nothing more |
| WebhookQitech.RunsPendingApproval | handlers/webhook_qitech/__init__.py:1493-1511 | the pending-approval validator runs exactly when one of the failure's enumerators is in the named set of five |
| WebhookQitech.PendingApprovalOfUnion | handlers/webhook_qitech/__init__.py:1493-1511 | the validator runs for a combined error list exactly when it runs for one of the parts |
| WebhookQitech.ApplyDataprevCode | handlers/webhook_qitech/__init__.py:1298-1344 | the code is stored; a contract not yet rejected is rejected, its contract cancelled and one rejection recorded exactly when the code is one of the nineteen |
| WebhookQitech.DataprevCodeIdempotent | handlers/webhook_qitech/__init__.py:1308-1344 | the same code delivered twice rejects the contract once |
| WebhookQitech.DataprevRejectsExactly | handlers/webhook_qitech/__init__.py:1308-1344 | after a code the contract is rejected exactly when it already was or the code is one of the nineteen |
| Qitech.RemoveAllAbsent | handlers/qitech.py:62-63 | removing a text that does not occur changes nothing |
| Qitech.EndpointOfResource | handlers/qitech.py:37-63 | the endpoint of a resource URL built from the base is its path |
| Qitech.DecodeBody | handlers/qitech.py:72-81 | the encoded body is decoded exactly when it is present and non-empty; otherwise the description, present or not |
| Qitech.SigningStringFields | handlers/qitech.py:98 | method, body digest, content type, date and endpoint are the five lines of the signed string, in that order |
| Qitech.JoinSplit | handlers/qitech.py:98 | parts joined by a character none of them holds split back into the same parts |
| Qitech.SendDocumentsResource | handlers/qitech.py:552-561 | portability and portability with refinancing go to the credit-transfer resource, free margin to the debt resource, anything else is not implemented |
| Qitech.PaymentResubmission | handlers/qitech.py:330-376 | a refinancing is resubmitted by PATCH on its resource, a free-margin loan by POST on its own, anything else is not implemented |
| Qitech.RefinancingTerms | handlers/qitech.py:260-270 | with a portability on the contract, its original instalment and the recalculated rate; otherwise the refinancing's own |
| Qitech.SentRate | handlers/qitech.py:276-281 | the rate sent is a hundredth of the rate or of the maximum, whichever is lower |
| Qitech.SentRateMonotone | handlers/qitech.py:276-281 | a higher rate never sends a lower one, and a rate within the cap is sent as it is |
| Consultas.Base64Append | handlers/consultas.py:135-140 | whole three-byte groups encode independently of what follows them, so the base64 of a concatenation is the concatenation of the encodings |
| Consultas.Base64Length | handlers/consultas.py:135-140 | the encoding has four characters per started group of three bytes |
| Consultas.IsPng | handlers/consultas.py:97-101 | a text is taken for a PNG exactly when its first eleven characters are "iVBORw0KGgo" |
| Consultas.IsPdf | handlers/consultas.py:104-110 | a text is taken for a PDF exactly when its first five characters are "JVBER" |
| Consultas.PngRecognised | handlers/consultas.py:97-101 | the base64 of a PNG file (its eight-byte signature, then the first chunk's length) passes the PNG test |
| Consultas.PdfRecognised | handlers/consultas.py:104-110 | the PDF test accepts the base64 of any bytes starting "%PD" and a byte with the top six bits of "F" |
| Consultas.PdfFileRecognised | handlers/consultas.py:104-110 | the base64 of a file starting "%PDF" passes the PDF test, whatever follows |
| Consultas.LastPiece | handlers/consultas.py:74 | the extension is the text after the last '/' of the MIME type: it holds no '/', ends the type, and is the whole type when it has no '/' |
| Consultas.LastPieceOfJoined | handlers/consultas.py:74 | the subtype of "kind/subtype" is read back |
| Consultas.UploadBase64 | handlers/consultas.py:68-75 | a text without ";base64," raises; otherwise the payload is the piece after the first ";base64," and the key is folder/slug.subtype |
| Consultas.UploadOfDataUrl | handlers/consultas.py:68-75 | a data URL "header;base64,payload" of MIME type kind/subtype is stored with that payload under folder/slug.subtype |
| Consultas.HubBucket | handlers/consultas.py:177-194 | cards read from the card bucket, portabilities from the portability bucket, INSS loans and free margin from the INSS bucket, other products have none |
| Consultas.HubOperation | handlers/consultas.py:295-354 | cards are sent as 'happy-cartao-beneficio', portabilities and free margin as 'happy-portabilidade', other products get no operation |
| Consultas.ConsultaRegrasHub | handlers/consultas.py:169-428 | the hub is asked with the product's operation and bucket; without an operation, or without a bucket when documents are read, the query answers nothing |
| Consultas.HubAskedByProduct | handlers/consultas.py:177-354 | every product with an operation has a bucket, so asking depends on the product alone; the INSS loans have a bucket but are never asked about |
| CustomAdmin.DigitRun | static/admin/custom_admin.js:17-19 | the captured group is the longest run of digits at that point: all digits, a prefix of the text, followed by a non-digit or the end |
| CustomAdmin.DigitRunOf | static/admin/custom_admin.js:17-19 | a number followed by a non-digit is captured whole |
| CustomAdmin.ClientIdFrom | static/admin/custom_admin.js:17-23 | the match is the leftmost "/cliente/" followed by a digit; no such position gives no match |
| CustomAdmin.ClientId | static/admin/custom_admin.js:17-23 | the client id is a non-empty run of digits, and there is none exactly when no "/cliente/" in the URL is followed by a digit |
| CustomAdmin.ClientIdOfPath | static/admin/custom_admin.js:17-23 | a URL whose first "/cliente/" is followed by the client's number and a non-digit gives that number back |
| CustomAdmin.LookupFinds | static/admin/custom_admin.js:47-53 | a member read from the request body is one written under that name, and none is read exactly when none was written |
| CustomAdmin.LookupDistinct | static/admin/custom_admin.js:47-53 | in a body without repeated names every member is read back |
| CustomAdmin.CancelBody | static/admin/custom_admin.js:47-53 | the cancellation body has the client member only when the URL held a client id, then reason, plan, contract and benefit |
| CustomAdmin.CollectionBody | static/admin/custom_admin.js:97-102 | the collection body has the client member only when the URL held a client id, then plan, contract and benefit |
| CustomAdmin.CancelBodyRoundTrip | static/admin/custom_admin.js:47-53 | each value of a cancellation body is read back under its name, and the client id exactly when there was one |
| CustomAdmin.CollectionBodyRoundTrip | static/admin/custom_admin.js:97-102 | each value of a collection body is read back under its name, and it carries no reason |
| CustomAdmin.SelectedReason | static/admin/custom_admin.js:27-36 | the reason is the value of the first checked radio, and there is none exactly when no radio is checked |
| CustomAdmin.CancelarContrato | static/admin/custom_admin.js:15-80 | the cancellation is sent exactly when some reason radio is checked, with that reason, the URL's client id and the row's contract; otherwise the alert is raised and nothing is sent |
| CustomAdmin.ModalReasonCodes | static/admin/custom_admin.js:306-319 | from the modal a cancellation is sent exactly when one of the four reasons is chosen, and the reason sent is its code, one of "001" to "004" |
| CustomAdmin.FirstTruthy | static/admin/custom_admin.js:58 | the chosen value is the first truthy one, or the default when none is |
| CustomAdmin.CancellationAnswer | static/admin/custom_admin.js:55-67 | a refused cancellation shows "Erro ao cancelar contrato: " and the first truthy of Erro, message and detail, or the default text; an accepted one shows the client id |
| CustomAdmin.EmptyErroFallsThrough | static/admin/custom_admin.js:58 | an empty Erro text does not hide the message |
| CustomAdmin.RowButtons | static/admin/custom_admin.js:364-408 | a row gains a cancel and a collection button, each enabled exactly when the operator is neither 'Sabemi' nor 'Tem Saúde', acting on the row's contract, plan and benefit |
| CustomAdmin.AddPlanColumns | static/admin/custom_admin.js:343-408 | the header gains the two columns and every row, and only its row, gains its two buttons |
| CustomAdmin.AddPlanColumnsKeepsShape | static/admin/custom_admin.js:343-408 | rows as wide as the header stay so, their old cells stay in place, and the first new button is enabled exactly for operators not blocked |
| CustomAdmin.EnvioArrecadacao | static/admin/custom_admin.js:82-103 | a collection request is always sent, with the URL's client id when there is one, the row's plan, contract and benefit, and no reason |

## Left out

- Django ORM queries, persistence, signals and migrations: rows are records and every query's answer is an input sequence. A `DoesNotExist` that the source does not catch is modelled only where it decides a visible outcome.
- All HTTP and SOAP clients (QiTech, Dock, Banksoft, BRB, the averbadoras, the rules hub, Unico, Zenvia, the translator): each answer is an input value (status code plus decoded body). The calls themselves are not modelled.
- JWT/ES512 signing and decoding, MD5 digests and base64 decoding are left out, because they are external library code. The signed string (`Qitech.SigningStringFields`) and the encoder used to recognise file headers (`Consultas.Base64`, written out from section 4 of RFC 4648) are modelled.
- S3 uploads, presigned URLs, temporary files and SFTP are left out, because they are storage I/O. Only the object key and bucket derivation is modelled.
- PDF rendering and term filling are left out, because they are coordinate drawing with no decision in them.
- Celery scheduling and countdowns are left out. Retries are modelled as a bounded count of runs (`DockFormalizacao.RunsBounded`).
- The clock is a parameter (`Calendar.Clock`). `datetime.now()` and `timezone.localtime()` are read from the same clock.
- Floating-point arithmetic is left out. IOF and premium calculations, `convert_score`, the CIP rate power and the recalculation loops driven by the external simulator are not modelled, and their results are inputs. `round(x, 4)` of the QiTech refinancing rate is not modelled (`Qitech.SentRate` works on reals).
- Django's `slugify` is left out: the slug is an input. `ContractApiViews.RetornoSaque` requires that the slug of the four statuses it acts on is the status itself.
- `ContractStatus`, `EnumContratoStatus`, `EnumTipoProduto` and the other enumerations come from modules that are not part of this model. Their values are distinct arbitrary constants.
- The Corban hierarchy level values (`DONO_LOJA`, `CORBAN_MASTER`, `DIGITADOR`) are assumed constants. `ProductTypeEnum` is not part of this model; its benefit-card, representative-card and payroll-card members are taken as the product types 6, 3 and 12 of `EnumTipoProduto`.
- `calcular_diferenca_datas` (contract/products/portabilidade/utils) is not part of this model. It is modelled as `relativedelta(final, inicial)` in months (`Calendar.DeltaMonths`).
- Calendar.ParseIsoDate: accepts only the zero-padded `YYYY-MM-DD` form, while `strptime` also accepts unpadded month and day.
- `validate_client_installments_number`, `validators.validate_idade`, `MaxContractByCPFValidator`, `ScoreValidation.execute`, `get_client_bank_data` and `change_main_contract_and_create_new_status` are not part of this model. Their verdicts are inputs.
- The portability simulation endpoint of contract/products/portabilidade_refin/api.py (lines 40-135) is left out, because it forwards to the external simulator.
- The minimum-value message of the simulation API interpolates an amount; only its fixed prefix is modelled.
- The SMS texts and response messages of the Corban desk actions are left out, as are the other `extra_context` fields of the admin change view. `__get_contract_status` is an input.
- The date, token and CIP `dehydrate_*` columns of the contract export are left out, because they are plain field reads.
- `descricao_mesa` set to `None` is not told apart from the empty text.
- `port.status or ''` rendering a zero status as empty is not modelled, because the status codes are non-zero.
- `ultimo_status.nome is not CHECAGEM_MESA_CORBAN.value` is an identity test; it is modelled as `!=`, which agrees for the small integers involved. `is not REPROVADO` in the webhook is modelled the same way.
- The third member of the webhook's `STATUS_BENEFICIO` is written as the enumeration member rather than its value; it is taken to equal its code.
- The webhook comment beside the endorsement-error test says the opposite of the code; the code is followed (`WebhookQitech.RunsPendingApproval`).
- The enumeration numbering of BRB document and attachment types is left out; they are named datatype constructors. A `contrato_seq` of `None` is not modelled.
- Banksoft's marital-status table maps the bare 'Solteiro' to 'NaoDefinido'. This is modelled as written.
- The Serpro `margin_reserve` call is left out, because it only forwards the request.
- A `None` margin value in `RealizaSimulacao`, which raises `TypeError`, is not modelled. A product without parameters (`ParametrosProduto` is `None`) is not modelled either.
- When a handler raises after a partial save, the partial writes are not kept: `Err` carries no state.
- A `CartaoBeneficio.DoesNotExist` or `MultipleObjectsReturned` raised during the duplicate check of `_criar_contrato` is not modelled.
- `Corban.get_hierarchy`, `get_subordinate_hierarchy` and `UserProfile.get_subordinates` loop forever on a cyclic chain in the source. The model takes a `fuel` bound and says nothing about chains longer than the fuel.
- The DOM building, styling, modal lifecycle and `response.json()` failure of the admin page script are left out. JavaScript numbers are modelled as integers.
- The KPI dashboard and the Corban-to-product select synchronisation scripts are left out, because they contain no decision beyond element lookups.
- Document fetching from S3 in `consulta_regras_hub` is left out. Whether an identity document is read is an input, and a product without a bucket then ends in the handler's caught error (`Consultas.ConsultaRegrasHub`).
- BenefitRules.Validar: applies the corrected product guard `BenefitRules.ValidarTipoProduto`. As written, a validator that declares its products as a tuple refuses nothing (`BenefitRules.ValidarTipoProdutoAsWritten`, see Findings), and this member does not reproduce that.
- CoreTasks.ProcessRegrasContrato: excludes the check rules with the corrected `CoreUtils.ExcludeAllCheckRules`. As written, a lone "PEP OBITO" rule raises `IndexError` and two adjacent keyword rules delete a neighbour (`CoreUtils.ExcludeAllCheckRulesAsWritten`, see Findings). The two agree when no description names more than one keyword.
- CoreTasks.ProcessRegrasIgnoresCheckRules: is stated over the corrected exclusion, for the same reason as `CoreTasks.ProcessRegrasContrato`. With the exclusion as written, a list of check rules can raise or keep a rule.
- CardApiViews.ConsultaLimiteSaque: uses the corrected `CardApiViews.Available` and `CardApiViews.CommittedTotal`. It does not compute the absolute difference of balance and committed amount (`CardApiViews.AvailableAsWritten`), nor the double count of an earlier withdrawal row (`CardApiViews.CommittedAsWritten`); both are listed under Findings.
- CardApiViews.SimulacaoSaqueComplementar: uses the clamped `CardApiViews.SimulationLimit`, not the absolute difference of `CardApiViews.SimulationLimitAsWritten` (see Findings).
- SimulationApi.ChooseRates: reads the rate table through `SimulationApi.RateForTerm`, which uses the corrected term filter. As written, every contract-type-1 row matches whatever the term (`SimulationApi.ObterTaxaAsWritten`, see Findings).
- SimulationApi.SimularContratoRates: inherits the corrected term filter through `SimulationApi.ChooseRates`, so it does not return the as-written rate of `SimulationApi.ObterTaxaAsWritten`.
- ClienteModel.Upper: maps one character to one character, and covers Latin-1 letters, the dotless i and the long s. Python's one-to-many mappings (ß to SS, ligatures) and the other scripts (µ to Greek capital mu, Cyrillic, Greek) are not modelled.
- ClienteModel.GetEstadoCivil: inherits the narrowing of `ClienteModel.Upper`. The one-to-many mappings left out produce none of the letter pairs of the five status names (no SS, ST, FI or FF), so the narrowing does not change which status is matched.
- Common.ParseInt: accepts only the ASCII digits 0-9. Python's `int()` also accepts other Unicode decimal digits and `_` separators ("1_0"), which are not modelled.
- CardSimulation.ParseBirth: reads the day, month and year fields with ASCII digits only, while `strptime` also accepts other Unicode decimal digits.
- CustomAuthViews.SelectedLevel: tests for ASCII digits only, while `str.isdigit` also accepts other Unicode digits (such as '²').
- GeneraliFile.Adhesion: takes the free-text fields as already transliterated. `unidecode` is external library code and is not modelled.
- The SMS sent to the client after an accepted margin drop with an instalment withdrawal (handlers/in100_cartao.py:405-415) is left out; only the new instalment terms are modelled (`In100Cartao.CompareMargin`).
- Consultas.Base64: has no ensures of its own, because its length is stated by `Consultas.Base64Length` and its prefixes by `Consultas.PngRecognised` and `Consultas.PdfRecognised`.
- CustomAdmin.Lookup: has no ensures of its own, because its meaning is stated by `CustomAdmin.LookupFinds` and `CustomAdmin.LookupDistinct`.

## Findings

| source | as written | input that shows it | evidently intended | confidence | as-written member | corrected member |
|---|---|---|---|---|---|---|
| handlers/validar_regras_beneficio_contrato.py:236-256 | `validar_tipo_produto` tests only `list` and `int` declarations; the free-margin validator declares a tuple, so no product is ever refused | tuple (MARGEM_LIVRE, INSS) with a portability contract: accepted | a tuple refuses products outside it, like a list | not executed; high | BenefitRules.ValidarTipoProdutoAsWritten with BenefitRules.TupleGuardLetsAnyProductThrough | BenefitRules.ValidarTipoProduto |
| handlers/criar_dados_planos.py:184-193 | `remove_first_line_starting_with` deletes from the list it is enumerating and never stops, so every non-adjacent matching line is deleted | "9" on ["9a\n", "x\n", "9b\n"] gives ["x\n"] | only the first matching line is removed: ["x\n", "9b\n"] | not executed; high | GeneraliFile.RemoveFirstLineAsWritten with GeneraliFile.RemoveAsWrittenDropsSecondMatch | GeneraliFile.RemoveFirstLineStartingWith with GeneraliFile.RemoveFirstKeepsSecondMatch |
| core/utils.py:816-825 | `exclude_all_check_rules` deletes by index once per keyword found, so a description naming two keywords also deletes a neighbour, or raises when alone | rules "CPF" then "PEP OBITO": both deleted; "PEP OBITO" alone: IndexError | each check rule is removed once and the others kept | not executed; high | CoreUtils.ExcludeAllCheckRulesAsWritten with CoreUtils.ExcludeAsWrittenDropsNeighbour | CoreUtils.ExcludeAllCheckRules with CoreUtils.ExcludeAllCheckRulesSpec |
| core/tasks/__init__.py:349-355 | with both the 'ocr' and the 'endereco' lists present, the second test calls `.get` on the boolean of the first, which raises | a document rule with a passing name check and a failing CEP check | both lists decide the verdict: rejected, naming the failed field | not executed; low | CoreTasks.ProcessRegraAprovadaAsWritten with CoreTasks.ProcessRegraAsWrittenRaisesOnBothLists | CoreTasks.ProcessRegraAprovada |
| contract/products/cartao_beneficio/api/views.py:1425-1434 | the withdrawal row of an earlier contract stays bound, so a later contract of another product adds it again | a committed withdrawal of 100.00 followed by a representative-card contract: 200.00 committed | each committed withdrawal is counted once: 100.00 | not executed; low | CardApiViews.CommittedAsWritten with CardApiViews.CommittedAsWrittenCountsTwice | CardApiViews.CommittedTotal |
| contract/products/cartao_beneficio/api/views.py:1458-1469 | the available withdrawal is the absolute difference of balance and committed amount | balance 100.00, committed 300.00: 200.00 available | the difference clamped at zero: 0.00 | not executed; high | CardApiViews.AvailableAsWritten with CardApiViews.AvailableAsWrittenGrowsPastBalance | CardApiViews.Available |
| contract/products/cartao_beneficio/api/views.py:738-749 | the complementary-withdrawal limit is the absolute difference of balance and pending withdrawal | balance 100.00, pending withdrawal 300.00: 200.00 may be simulated | the difference clamped at zero: nothing may be simulated | not executed; high | CardApiViews.SimulationLimitAsWritten with CardApiViews.SimulationLimitAsWrittenOffersExcess | CardApiViews.SimulationLimit |
| simulacao/api/views.py:377-390 | the `Q` filter ORs the contract type 1 with the term condition, so every type-1 row matches whatever the term | type-1 rows at 84 months 3.00 and at 12 months 1.80, a 12-month term: 3.00 | the rounded term and (the contract type or type 1): 1.80 | not executed; low | SimulationApi.ObterTaxaAsWritten with SimulationApi.ObterTaxaAsWrittenTakesOtherTerm | SimulationApi.ObterTaxa |
| simulacao/api/views.py:450-457 | the filter's lambda tests the first item (`data`) instead of its own argument, so it keeps all items or none | items with 12 and 7 instalments, 12 and 24 requested: both kept | only the 12-instalment item is kept | not executed; medium | SimulationApi.FilterAnswerAsWritten with SimulationApi.FilterAnswerAsWrittenKeepsUnrequested | SimulationApi.FilterAnswer |
| contract/products/portabilidade_refin/handlers/proposal_financial_portability.py:241-303 | on a 2xx answer the acceptance returns the truthiness of the decoded body, while the row records success | a 2xx answer with an empty body: reported as a failure, stored as a success | a 2xx acceptance is reported as a success | not executed; medium | FinancialPortability.AcceptAsWritten with FinancialPortability.AcceptAsWrittenMisreports | FinancialPortability.Accept |
| contract/admin.py:942-950 | the method for the additional-document column is spelled `deydrate_adicional_enviado`, so the export never calls it | the `adicional_enviado` flag true: exported raw while `adicional_pendente` shows 'SIM' | rendered as 'SIM'/'NÃO' like the other flags | not executed; high | ContractAdmin.FlagCellAsWritten with ContractAdmin.FlagCellAsWrittenRawForAdditional | ContractAdmin.FlagCell |
| contract/admin.py:597-605 | the walrus test of the complementary withdrawal returns the empty text when the row is missing, so the 'N/A' branch is dead | a complementary withdrawal without its row: '' | 'N/A', as for the other products | not executed; high | ContractAdmin.VlrPropostaAsWritten with ContractAdmin.VlrPropostaAsWrittenHidesMissingRow | ContractAdmin.VlrProposta |
| handlers/facil.py:387-471 | the unified reservation loop continues after a failed purchase reservation and reports the last request's outcome | purchase fails, withdrawal succeeds: the withdrawal margin is held alone and success reported | all or nothing, as the rollback of the withdrawal failure in handlers/zetra.py:742-753 does | not executed; low | Averbadoras.UnifiedReserveAsWritten with Averbadoras.AsWrittenKeepsWithdrawalAlone | Averbadoras.UnifiedAllOrNothing |
| handlers/facil.py:107-126 | `hasattr` on the consignment answer, a dictionary, is never true, so the active-consignment code is never returned | a registration on an active payroll code whose consignment amount is 100: returned as valid | the active consignment is reported and the registration dropped | not executed; medium | Facil.ConsultaMatriculaAsWritten with Facil.AsWrittenMissesActiveConsignment | Facil.ConsultaMatricula |
| handlers/serpro.py:137-150 | the registration's payroll number is converted with `int` and looked up among the stored codes, which are text, so it never matches | payroll number "12" with an active stored code "12": no registration returned | the text is compared with the stored codes, as `margins_consult` does | not executed; high | Serpro.RegistrationsAsWritten with Serpro.RegistrationsAsWrittenNeverFind | Serpro.Registrations |
| handlers/neoconsig.py:411-420 | the guard after the confirmation re-tests the reservation's answer, so a failed confirmation is never cancelled and the next one replaces it | a unified card whose purchase confirmation fails and whose withdrawal confirmation succeeds: success, nothing cancelled | the failed confirmation cancels the reserves and is returned | not executed; medium | Neoconsig.ReserveAndConfirmAsWritten with Neoconsig.FailedPurchaseConfirmationHidden | Neoconsig.ReserveAndConfirm with Neoconsig.FailedConfirmationCancels |
| handlers/banksoft.py:38-39 | the due day is capped at the day of today plus one month, which is today's day, instead of at that month's length | today 2024-01-05, day 10: 2024-02-05 | 2024-02-10 | not executed; high | Banksoft.DueDateAsWritten with Banksoft.DueDateCappedAtToday | Banksoft.DueDate with Banksoft.DueDateAgreement |
