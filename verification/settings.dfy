/** The configuration the services read once at start-up. Only the values
    that steer decisions are modelled; credentials and endpoint URLs are not. */
module Settings {

  /** Upload ceiling in bytes: 10 MiB (app/core/config.py, MAX_FILE_SIZE). */
  const MaxFileSize: nat := 10 * 1024 * 1024

  /** Spreadsheet name used when SPREADSHEET_NAME is not set. */
  const DefaultSpreadsheetName := "OCR Results Comparison"

  /** SPREADSHEET_NAME and SPREADSHEET_URL; the URL is empty when not set. */
  datatype Config = Config(spreadsheetName: string, spreadsheetUrl: string)

  /** The configuration with no environment overrides. */
  const Defaults := Config(DefaultSpreadsheetName, "")
}
