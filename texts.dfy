/** The user-visible strings of the bot that the core puts into history or replies. */
module Texts {

  /** `TEXTS['error']` with its `{error}` placeholder filled in. */
  function ErrorText(detail: string): (r: string)
    ensures |r| == |detail| + 10 && r[0] == '❌'
    ensures r[10..] == detail
  {
    "❌ Ошибка: " + detail
  }

  const NoHistory: string := "📭 История пуста"
  const HistoryHeader: string := "📋 История разговора:\n\n"

  /** Role labels used when rendering history. */
  const UserLabel: string := "👤 Вы"
  const BotLabel: string := "🤖 Бот"

  /** What the completion call returns when the library answered with nothing. */
  const EmptyResponse: string := "❌ Пустой ответ от модели"

  /** The sign that opens the client's not-configured notice. */
  const WarningSign: string := "⚠️"

  /** What the client returns when no provider was set (g4f missing, or its provider lookup failed). */
  const NotConfigured: string := WarningSign + " g4f не настроен. Установите: pip install g4f"

  /** What the chat handler sends when the reply is empty. */
  const NoAnswer: string := "❌ Не удалось получить ответ"
}
