/** The settings record of src/config.py and its two derived flags. */
module Config {

  datatype Settings = Settings(
    xBearerToken: string,
    openaiApiKey: string,
    openaiModel: string,
    telegramBotToken: string,
    telegramChatId: string,
    smtpHost: string,
    smtpPort: int,
    smtpUser: string,
    smtpPassword: string,
    emailTo: string,
    summaryCronHour: int,
    summaryCronMinute: int,
    databasePath: string)

  /** Settings with only the two required values given; everything else is the default. */
  function DefaultSettings(xBearerToken: string, openaiApiKey: string): (s: Settings)
    ensures s.xBearerToken == xBearerToken && s.openaiApiKey == openaiApiKey
  {
    Settings(xBearerToken, openaiApiKey, "gpt-4-turbo-preview", "", "", "smtp.gmail.com", 587,
             "", "", "", 8, 0, "data/x_monitor.db")
  }

  /** Python's `a and b` on strings: the first falsy operand, else the last one. */
  function PyAnd(a: string, b: string): string {
    if a == "" then a else b
  }

  /** `Settings.telegram_enabled`, i.e. `bool(token and chat_id)`. */
  function TelegramEnabled(s: Settings): (r: bool)
    ensures r <==> s.telegramBotToken != "" && s.telegramChatId != ""
  {
    PyAnd(s.telegramBotToken, s.telegramChatId) != ""
  }

  /** `Settings.email_enabled`, i.e. `bool(user and password and to)`. */
  function EmailEnabled(s: Settings): (r: bool)
    ensures r <==> s.smtpUser != "" && s.smtpPassword != "" && s.emailTo != ""
  {
    PyAnd(PyAnd(s.smtpUser, s.smtpPassword), s.emailTo) != ""
  }

  /** Out of the box neither notifier is configured, and the other defaults are as documented. */
  lemma DefaultsDisableNotifiers(xBearerToken: string, openaiApiKey: string)
    ensures !TelegramEnabled(DefaultSettings(xBearerToken, openaiApiKey))
    ensures !EmailEnabled(DefaultSettings(xBearerToken, openaiApiKey))
    ensures DefaultSettings(xBearerToken, openaiApiKey).smtpPort == 587
    ensures DefaultSettings(xBearerToken, openaiApiKey).smtpHost == "smtp.gmail.com"
    ensures DefaultSettings(xBearerToken, openaiApiKey).summaryCronHour == 8
    ensures DefaultSettings(xBearerToken, openaiApiKey).summaryCronMinute == 0
    ensures DefaultSettings(xBearerToken, openaiApiKey).databasePath == "data/x_monitor.db"
    ensures DefaultSettings(xBearerToken, openaiApiKey).openaiModel == "gpt-4-turbo-preview"
  {
  }
}
