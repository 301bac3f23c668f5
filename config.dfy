/**
 * The slice of the application's configuration record that the background
 * lifecycle and the translator registry read. Fields that none of them read
 * are kept together in `other`, so that "every other field is kept" can be said.
 */
module Config {

  datatype SchedulerConfig = SchedulerConfig(useCache: bool)

  datatype TextTranslatorConfig = TextTranslatorConfig(rememberText: bool)

  /** `mode` is the selection translator's mode string, e.g. "contextMenu". */
  datatype SelectTranslatorConfig = SelectTranslatorConfig(enabled: bool, mode: string)

  datatype PageTranslatorConfig = PageTranslatorConfig(enableContextMenu: bool)

  datatype AppConfig = AppConfig(
    translatorModule: string,
    appIcon: string,
    scheduler: SchedulerConfig,
    textTranslator: TextTranslatorConfig,
    selectTranslator: SelectTranslatorConfig,
    pageTranslator: PageTranslatorConfig,
    other: map<string, string>)

  /** The mode value under which the selection translator lives in the context menu. */
  const ContextMenuMode: string := "contextMenu"
}
