/**
 * api.go: start_api, the credential resolver. It merges an optional YAML
 * configuration with the environment field by field, blanks a production flag
 * that is not a boolean, and refuses to build a client unless key, secret and
 * production flag are all present.
 */
module Api {
  import opened Wrappers
  import opened GoLib

  /** The gemini_api_credentials section of the YAML file (gemini_yml); absent fields are "". */
  datatype Credentials = Credentials(key: string, secret: string, production: string)

  /** What opening and decoding the configuration file at the given path produced. */
  datatype ConfigFile = OpenFailed | DecodeFailed(err: string) | Decoded(creds: Credentials)

  /** The process environment; os.Getenv of an unset variable is "". */
  type Env = map<string, string>

  function Getenv(env: Env, name: string): string
  {
    if name in env then env[name] else ""
  }

  /** What gemini.New receives: the production switch, the key and the secret. */
  datatype Client = Client(production: bool, key: string, secret: string)

  const KeyVar := "GEMINI_API_KEY"
  const SecretVar := "GEMINI_API_SECRET"
  const ProductionVar := "GEMINI_API_PRODUCTION"
  const MissingCredentials := "Set Gemini API credentials."

  // ---------------------------------------------------------------------------
  // The resolution rules, stated field by field

  /** The credentials read from the configuration file, or the error that ends start_api. */
  function ConfigOf(path: string, file: ConfigFile): Result<Credentials>
  {
    if path == "" then Success(Credentials("", "", ""))
    else match file
      case OpenFailed => Failure("Cannot open configuration file: " + path)
      case DecodeFailed(err) => Failure(err)
      case Decoded(creds) => Success(creds)
  }

  /** A non-empty configured value wins; otherwise the environment variable. */
  function Pick(configured: string, env: Env, name: string): string
  {
    if configured != "" then configured else Getenv(env, name)
  }

  /**
   * The production switch: the configured text when non-empty, else the
   * environment's, read by ParseBool. An unreadable configured text does not
   * fall back to the environment.
   */
  function ProductionOf(cfg: Credentials, env: Env): Option<bool>
  {
    ParseBool(Pick(cfg.production, env, ProductionVar))
  }

  /** The outcome start_api arrives at. */
  function Resolve(path: string, file: ConfigFile, env: Env): (r: Result<Client>)
    ensures r.Success? ==> r.value.key != "" && r.value.secret != ""
  {
    match ConfigOf(path, file)
    case Failure(err) => Failure(err)
    case Success(cfg) =>
      var key := Pick(cfg.key, env, KeyVar);
      var secret := Pick(cfg.secret, env, SecretVar);
      var production := ProductionOf(cfg, env);
      if key == "" || secret == "" || production.None? then Failure(MissingCredentials)
      else Success(Client(production.value, key, secret))
  }

  // ---------------------------------------------------------------------------
  // start_api, step by step

  /**
   * start_api: updates the decoded record one field at a time (filling empty
   * fields from the environment, blanking an unreadable production flag), then
   * checks the final record before building the client.
   */
  method StartApi(path: string, file: ConfigFile, env: Env) returns (r: Result<Client>)
    ensures r == Resolve(path, file, env)
  {
    var gc := Credentials("", "", "");
    var production := false;
    if path != "" {
      match file {
        case OpenFailed =>
          return Failure("Cannot open configuration file: " + path);
        case DecodeFailed(err) =>
          return Failure(err);
        case Decoded(creds) =>
          gc := creds;
      }
    }

    if gc.key == "" {
      gc := gc.(key := Getenv(env, KeyVar));
    }
    if gc.secret == "" {
      gc := gc.(secret := Getenv(env, SecretVar));
    }
    if gc.production != "" {
      var parsed := ParseBool(gc.production);
      production := if parsed.Some? then parsed.value else false;
      if gc.production != "" && parsed.None? {
        gc := gc.(production := "");
      }
    } else {
      gc := gc.(production := Getenv(env, ProductionVar));
      var parsed := ParseBool(gc.production);
      production := if parsed.Some? then parsed.value else false;
      if gc.production != "" && parsed.None? {
        gc := gc.(production := "");
      }
    }

    if gc.key == "" || gc.secret == "" || gc.production == "" {
      return Failure(MissingCredentials);
    }
    return Success(Client(production, gc.key, gc.secret));
  }

  // ---------------------------------------------------------------------------
  // Precedence

  /** A non-empty configured key is used as is and GEMINI_API_KEY is never read. */
  lemma ConfigKeyWins(path: string, creds: Credentials, env: Env, v: string)
    requires path != "" && creds.key != ""
    ensures Resolve(path, Decoded(creds), env) == Resolve(path, Decoded(creds), env[KeyVar := v])
    ensures Resolve(path, Decoded(creds), env).Success? ==> Resolve(path, Decoded(creds), env).value.key == creds.key
  {
  }

  /** A non-empty configured secret is used as is and GEMINI_API_SECRET is never read. */
  lemma ConfigSecretWins(path: string, creds: Credentials, env: Env, v: string)
    requires path != "" && creds.secret != ""
    ensures Resolve(path, Decoded(creds), env) == Resolve(path, Decoded(creds), env[SecretVar := v])
    ensures Resolve(path, Decoded(creds), env).Success? ==> Resolve(path, Decoded(creds), env).value.secret == creds.secret
  {
  }

  /**
   * A non-empty configured production text is never replaced by
   * GEMINI_API_PRODUCTION; when it is not a boolean the resolution fails
   * whatever the environment holds.
   */
  lemma ConfigProductionWins(path: string, creds: Credentials, env: Env, v: string)
    requires path != "" && creds.production != ""
    ensures Resolve(path, Decoded(creds), env) == Resolve(path, Decoded(creds), env[ProductionVar := v])
    ensures ParseBool(creds.production).None? ==> Resolve(path, Decoded(creds), env) == Failure(MissingCredentials)
    ensures Resolve(path, Decoded(creds), env).Success? ==>
              ParseBool(creds.production) == Some(Resolve(path, Decoded(creds), env).value.production)
  {
  }

  /**
   * An empty configured production text defers to GEMINI_API_PRODUCTION;
   * an unset or non-boolean value there makes the resolution fail.
   */
  lemma EnvProductionFallback(path: string, file: ConfigFile, env: Env)
    requires ConfigOf(path, file).Success? && ConfigOf(path, file).value.production == ""
    ensures ParseBool(Getenv(env, ProductionVar)).None? ==> Resolve(path, file, env) == Failure(MissingCredentials)
    ensures Resolve(path, file, env).Success? ==>
              ParseBool(Getenv(env, ProductionVar)) == Some(Resolve(path, file, env).value.production)
  {
  }

  /** Without a configuration path every field comes from the environment and the file is not looked at. */
  lemma NoPathUsesEnvironment(file: ConfigFile, file': ConfigFile, env: Env)
    ensures Resolve("", file, env) == Resolve("", file', env)
    ensures Resolve("", file, env).Success? <==>
              Getenv(env, KeyVar) != "" && Getenv(env, SecretVar) != "" && ParseBool(Getenv(env, ProductionVar)).Some?
    ensures Resolve("", file, env).Success? ==>
              Resolve("", file, env).value ==
                Client(ParseBool(Getenv(env, ProductionVar)).value, Getenv(env, KeyVar), Getenv(env, SecretVar))
  {
  }

  /** A file that cannot be opened or decoded ends resolution before the environment is read. */
  lemma ConfigErrorsStop(path: string, err: string, env: Env, env': Env)
    requires path != ""
    ensures Resolve(path, OpenFailed, env) == Resolve(path, OpenFailed, env')
              == Failure("Cannot open configuration file: " + path)
    ensures Resolve(path, DecodeFailed(err), env) == Resolve(path, DecodeFailed(err), env') == Failure(err)
  {
  }

  /**
   * Once the file is read, resolution fails with "Set Gemini API credentials."
   * exactly when the key, the secret or a readable production flag is missing,
   * and otherwise hands ParseBool(production), key and secret to gemini.New.
   */
  lemma CompletenessCheck(path: string, file: ConfigFile, env: Env)
    requires ConfigOf(path, file).Success?
    ensures var cfg := ConfigOf(path, file).value;
            var key := Pick(cfg.key, env, KeyVar);
            var secret := Pick(cfg.secret, env, SecretVar);
            var r := Resolve(path, file, env);
            && (r == Failure(MissingCredentials) <==> key == "" || secret == "" || ProductionOf(cfg, env).None?)
            && (r.Success? <==> key != "" && secret != "" && ProductionOf(cfg, env).Some?)
            && (r.Success? ==> r.value == Client(ProductionOf(cfg, env).value, key, secret))
  {
  }
}
