/** An optional value: `T | null` and `T | undefined` in the dashboard's types. */
module Wrappers {
  datatype Option<+T> = None | Some(value: T)

  /** The select-or-clear rule of a toggle button: clicking the selected
      value clears the selection, clicking any other value selects it. */
  function Toggle<T(==)>(current: Option<T>, x: T): (r: Option<T>)
    ensures r == None <==> current == Some(x)
    ensures r.Some? ==> r.value == x
  {
    if current == Some(x) then None else Some(x)
  }
}

/** The user record of src/data/mockUsers.ts as the users page stores it. */
module UserData {
  import opened Wrappers

  datatype UserStatus = Ativo | Inativo | Pendente

  /** The access tags the users page stores in `permissoes`. */
  datatype AccessLevel = Admin | Editor | Viewer

  datatype Member = Member(
    id: string,
    nome: string,
    email: string,
    cargo: string,
    status: UserStatus,
    ultimoAcesso: Option<string>,
    permissoes: seq<AccessLevel>,
    dataCriacao: string)
}

/** The alert record of src/data/mockAlerts.ts. */
module AlertData {
  import opened Wrappers

  datatype AlertType = Erro | Aviso | Sucesso | Info

  datatype Alert = Alert(
    id: string,
    tipo: AlertType,
    titulo: string,
    mensagem: string,
    botId: Option<string>,
    botNome: Option<string>,
    dataHora: string,
    lida: bool)
}

/** The log, execution-history and schedule records of src/data/mockLogs.ts. */
module LogData {
  import opened Wrappers

  datatype Level = Info | Warn | Error | Debug

  /** The string tag a level carries in the source (`'info'`, ...). */
  function LevelName(l: Level): string
  {
    match l
    case Info => "info"
    case Warn => "warn"
    case Error => "error"
    case Debug => "debug"
  }

  datatype LogEntry = LogEntry(
    id: string,
    timestamp: string,
    level: Level,
    message: string,
    details: Option<string>)

  datatype HistoryStatus = Sucesso | Falha | Cancelado

  function HistoryStatusName(s: HistoryStatus): string
  {
    match s
    case Sucesso => "Sucesso"
    case Falha => "Falha"
    case Cancelado => "Cancelado"
  }

  datatype ExecutionHistory = ExecutionHistory(
    id: string,
    dataHora: string,
    status: HistoryStatus,
    duracao: string,
    registrosProcessados: Option<nat>,
    erro: Option<string>)

  /** The weekday keys `'seg'` .. `'dom'`. */
  datatype Day = Seg | Ter | Qua | Qui | Sex | Sab | Dom

  datatype ScheduleSlot = ScheduleSlot(
    id: string,
    dia: Day,
    horario: string,
    ativo: bool)
}

/** The bot record of src/data/mockBots.ts. */
module BotData {
  import opened Wrappers

  datatype BotStatus = Ativo | Pausado | Erro

  datatype Bot = Bot(
    id: string,
    nome: string,
    status: BotStatus,
    proximaExecucao: Option<string>,
    ultimaExecucao: Option<string>,
    duracaoMedia: string,
    tags: seq<string>)
}
