/** The configuration values the core reads (config/settings.py), with the
    defaults that apply when the environment sets nothing. */
module Settings {
  import opened Outcomes

  datatype AppSettings = AppSettings(
    openaiApiKey: Option<string>,
    openaiBaseUrl: string,
    anthropicApiKey: Option<string>,
    anthropicBaseUrl: string,
    ollamaBaseUrl: string,
    awsAccessKeyId: Option<string>,
    awsSecretAccessKey: Option<string>,
    awsRegion: string,
    azureStorageConnectionString: Option<string>,
    defaultUploadPath: string,
    defaultOutputPath: string)

  /** The settings of an environment that defines none of the variables. */
  const Defaults: AppSettings := AppSettings(
    openaiApiKey := None,
    openaiBaseUrl := "https://api.openai.com/v1",
    anthropicApiKey := None,
    anthropicBaseUrl := "https://api.anthropic.com",
    ollamaBaseUrl := "http://localhost:11434",
    awsAccessKeyId := None,
    awsSecretAccessKey := None,
    awsRegion := "us-east-1",
    azureStorageConnectionString := None,
    defaultUploadPath := "./uploads",
    defaultOutputPath := "./outputs")

  /** Both AWS credentials are set (`if not key or not secret` fails otherwise). */
  predicate HasAwsCredentials(s: AppSettings)
  {
    Truthy(s.awsAccessKeyId) && Truthy(s.awsSecretAccessKey)
  }
}
