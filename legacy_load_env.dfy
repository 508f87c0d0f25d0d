/** The first settings module, load_env.py at the top of the repository: the
    same conversions as casalioy/load_env.py, without `N_GPU_LAYERS` and with
    `LLAMA_EMBEDDINGS_MODEL` as the only embedding setting. */
module LegacyLoadEnv {
  import opened Wrappers
  import opened Text
  import LoadEnv

  /** The module-level settings of this script. */
  datatype LegacySettings = LegacySettings(
    llamaEmbeddingsModel: Option<string>, modelNCtx: int, useMlock: bool,
    persistDirectory: Option<string>, documentsDirectory: Option<string>,
    chunkSize: int, chunkOverlap: int,
    modelType: Option<string>, modelPath: Option<string>, modelTemp: string,
    stop: seq<string>, chainType: string)

  /** The conversions in the order this module runs them. */
  function Conversions(env: LoadEnv.Env): seq<Result<int>> {
    [ LoadEnv.RequiredInt(env, "MODEL_N_CTX"),
      if "USE_MLOCK" in env then Success(0) else Failure("AttributeError"),
      LoadEnv.RequiredInt(env, "INGEST_CHUNK_SIZE"),
      LoadEnv.RequiredInt(env, "INGEST_CHUNK_OVERLAP") ]
  }

  function SettingsOf(env: LoadEnv.Env, nCtx: int, chunkSize: int, chunkOverlap: int): LegacySettings
    requires "USE_MLOCK" in env
  {
    LegacySettings(LoadEnv.Get(env, "LLAMA_EMBEDDINGS_MODEL"), nCtx, ToLower(env["USE_MLOCK"]) == "true",
                   LoadEnv.Get(env, "PERSIST_DIRECTORY"), LoadEnv.Get(env, "DOCUMENTS_DIRECTORY"),
                   chunkSize, chunkOverlap,
                   LoadEnv.Get(env, "MODEL_TYPE"), LoadEnv.Get(env, "MODEL_PATH"),
                   if "MODEL_TEMP" in env then env["MODEL_TEMP"] else "0.8",
                   LoadEnv.Stop(env), LoadEnv.ChainType(env))
  }

  /** Importing the module: every setting, or the error of the first
      conversion that raises. */
  function Load(env: LoadEnv.Env): (r: Result<LegacySettings>)
    ensures r.Failure? <==> LoadEnv.FirstError(Conversions(env)).Some?
    ensures r.Failure? ==> LoadEnv.FirstError(Conversions(env)) == Some(r.error)
  {
    var c := Conversions(env);
    match LoadEnv.FirstError(c)
    case Some(e) => Failure(e)
    case None =>
      assert c[0].Success? && c[1].Success? && c[2].Success? && c[3].Success?;
      Success(SettingsOf(env, c[0].value, c[2].value, c[3].value))
  }

  /** Four conversions all succeed exactly when each does. */
  lemma NoErrorInFour(a: Result<int>, b: Result<int>, c: Result<int>, d: Result<int>)
    ensures LoadEnv.FirstError([a, b, c, d]).None? <==> a.Success? && b.Success? && c.Success? && d.Success?
  {
    var cs := [a, b, c, d];
    assert cs[0] == a && cs[1] == b && cs[2] == c && cs[3] == d;
  }

  /** The module loads exactly when the three required integers are present
      and numeric and `USE_MLOCK` is set. */
  lemma LoadSucceeds(env: LoadEnv.Env)
    ensures Load(env).Success? <==>
      (&& LoadEnv.RequiredInt(env, "MODEL_N_CTX").Success? && "USE_MLOCK" in env
       && LoadEnv.RequiredInt(env, "INGEST_CHUNK_SIZE").Success? && LoadEnv.RequiredInt(env, "INGEST_CHUNK_OVERLAP").Success?)
  {
    NoErrorInFour(LoadEnv.RequiredInt(env, "MODEL_N_CTX"),
                  if "USE_MLOCK" in env then Success(0) else Failure("AttributeError"),
                  LoadEnv.RequiredInt(env, "INGEST_CHUNK_SIZE"),
                  LoadEnv.RequiredInt(env, "INGEST_CHUNK_OVERLAP"));
  }

  /** Both modules read the shared settings alike: whenever casalioy/load_env.py
      loads, this one does too with the same values, and the two fail alike
      when `N_GPU_LAYERS` is unset. */
  lemma AgreesWithLoadEnv(env: LoadEnv.Env)
    ensures LoadEnv.Load(env).Success? ==> Load(env).Success?
    ensures "N_GPU_LAYERS" !in env ==> (Load(env).Success? <==> LoadEnv.Load(env).Success?)
    ensures LoadEnv.Load(env).Success? ==>
      var s, t := LoadEnv.Load(env).value, Load(env).value;
      && s.modelNCtx == t.modelNCtx && s.useMlock == t.useMlock
      && s.chunkSize == t.chunkSize && s.chunkOverlap == t.chunkOverlap
      && s.modelType == t.modelType && s.modelPath == t.modelPath && s.modelTemp == t.modelTemp
      && s.stop == t.stop && s.chainType == t.chainType
  {
    LoadSucceeds(env);
    LoadEnv.LoadSucceeds(env);
    if LoadEnv.Load(env).Success? {
      LoadEnv.LoadFields(env);
      var c := Conversions(env);
      assert c[0] == LoadEnv.RequiredInt(env, "MODEL_N_CTX");
      assert c[2] == LoadEnv.RequiredInt(env, "INGEST_CHUNK_SIZE");
      assert c[3] == LoadEnv.RequiredInt(env, "INGEST_CHUNK_OVERLAP");
    }
  }
}
