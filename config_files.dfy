/**
  * `save_configs`: each document replaces its live file in the configuration
  * directory, and a live file that already exists is first copied to a
  * timestamped file under `backups/`. The filesystem is a map from path to
  * text, and the YAML serialiser is a function supplied by the caller.
  */
module ConfigFiles {
  import opened PyStr
  import opened Json
  import Records
  import opened ConfigGenerator

  type Files = map<string, string>

  const GptLoadFile: string := "gpt-load.yaml"
  const UniApiFile: string := "api.yaml"
  const BackupDir: string := "backups"

  /** `os.path.join(a, b)` on POSIX. */
  function PathJoin(a: string, b: string): (r: string)
    ensures b != [] && b[0] != '/' ==> |r| == |a| + |b| + (if a == [] || a[|a| - 1] == '/' then 0 else 1)
  {
    if b != [] && b[0] == '/' then b
    else if a == [] || a[|a| - 1] == '/' then a + b
    else a + "/" + b
  }

  function LivePath(dir: string, file: string): string {
    PathJoin(dir, file)
  }

  function BackupPath(dir: string, stem: string, timestamp: string): string {
    PathJoin(PathJoin(dir, BackupDir), stem + "_" + timestamp + ".yaml")
  }

  /** One file's step: copy the live file to the backup when it exists, then overwrite it. */
  function BackupThenWrite(files: Files, live: string, backup: string, text: string): Files {
    (if live in files then files[backup := files[live]] else files)[live := text]
  }

  /** The files after `save_configs`: gpt-load first, then uni-api. */
  function SaveSpec(files: Files, dir: string, timestamp: string, gptText: string, uniText: string): Files {
    var afterGpt := BackupThenWrite(files, LivePath(dir, GptLoadFile), BackupPath(dir, "gpt-load", timestamp), gptText);
    BackupThenWrite(afterGpt, LivePath(dir, UniApiFile), BackupPath(dir, "api", timestamp), uniText)
  }

  /** The two live paths and the two backup paths are four different paths. */
  lemma {:induction false} PathsDistinct(dir: string, timestamp: string)
    ensures var paths := [LivePath(dir, GptLoadFile), LivePath(dir, UniApiFile),
                          BackupPath(dir, "gpt-load", timestamp), BackupPath(dir, "api", timestamp)];
      forall i, j :: 0 <= i < j < 4 ==> paths[i] != paths[j]
  {
    var d := if dir == [] || dir[|dir| - 1] == '/' then 0 else 1;
    var backups := PathJoin(dir, BackupDir);
    assert |LivePath(dir, GptLoadFile)| == |dir| + d + 13;
    assert |LivePath(dir, UniApiFile)| == |dir| + d + 8;
    assert |backups| == |dir| + d + 7 && backups[|backups| - 1] == 's';
    assert |BackupPath(dir, "gpt-load", timestamp)| == |dir| + d + 22 + |timestamp|;
    assert |BackupPath(dir, "api", timestamp)| == |dir| + d + 17 + |timestamp|;
  }

  /**
    * After a save both live files hold the new documents; each live file that
    * existed before is in its backup; a backup is written only for a live file
    * that existed; every other path is as it was.
    */
  lemma {:induction false} SaveEffect(files: Files, dir: string, timestamp: string, gptText: string, uniText: string)
    ensures var after := SaveSpec(files, dir, timestamp, gptText, uniText);
      var gptLive, uniLive := LivePath(dir, GptLoadFile), LivePath(dir, UniApiFile);
      var gptBackup, uniBackup := BackupPath(dir, "gpt-load", timestamp), BackupPath(dir, "api", timestamp);
      && gptLive in after && after[gptLive] == gptText
      && uniLive in after && after[uniLive] == uniText
      && (gptLive in files ==> gptBackup in after && after[gptBackup] == files[gptLive])
      && (uniLive in files ==> uniBackup in after && after[uniBackup] == files[uniLive])
      && (gptLive !in files ==> (gptBackup in after <==> gptBackup in files))
      && (gptLive !in files && gptBackup in files ==> after[gptBackup] == files[gptBackup])
      && (uniLive !in files ==> (uniBackup in after <==> uniBackup in files))
      && (uniLive !in files && uniBackup in files ==> after[uniBackup] == files[uniBackup])
      && (forall p :: p !in {gptLive, uniLive, gptBackup, uniBackup} ==>
            (p in after <==> p in files) && (p in files ==> after[p] == files[p]))
  {
    PathsDistinct(dir, timestamp);
  }

  /** Saving twice: the second save's backups hold what the first save wrote. */
  lemma {:induction false} SaveTwice(files: Files, dir: string, ts1: string, ts2: string,
                  gpt1: string, uni1: string, gpt2: string, uni2: string)
    ensures var once := SaveSpec(files, dir, ts1, gpt1, uni1);
      var twice := SaveSpec(once, dir, ts2, gpt2, uni2);
      twice[BackupPath(dir, "gpt-load", ts2)] == gpt1 && twice[BackupPath(dir, "api", ts2)] == uni1 &&
      twice[LivePath(dir, GptLoadFile)] == gpt2 && twice[LivePath(dir, UniApiFile)] == uni2
  {
    var once := SaveSpec(files, dir, ts1, gpt1, uni1);
    SaveEffect(files, dir, ts1, gpt1, uni1);
    SaveEffect(once, dir, ts2, gpt2, uni2);
  }

  /** The service's settings and the part of the filesystem it writes. */
  class ConfigService {
    const gptLoadUrl: string
    const configDir: string
    var files: Files

    constructor(gptLoadUrl: string, configDir: string, files: Files)
      ensures this.gptLoadUrl == gptLoadUrl && this.configDir == configDir && this.files == files
    {
      this.gptLoadUrl := gptLoadUrl;
      this.configDir := configDir;
      this.files := files;
    }

    /** The service as constructed without arguments: gpt-load on localhost:3001, files under /app/config. */
    constructor Default(files: Files)
      ensures gptLoadUrl == DefaultGptLoadUrl && configDir == DefaultConfigDir && this.files == files
    {
      gptLoadUrl := DefaultGptLoadUrl;
      configDir := DefaultConfigDir;
      this.files := files;
    }

    /** `generate_uniapi_config` with this service's gpt-load address. */
    method GenerateUniApi(ms: seq<Records.ModelRecord>) returns (config: UniApiConfig)
      ensures config == UniApiSpec(gptLoadUrl, ms)
    {
      config := GenerateUniApiConfig(gptLoadUrl, ms);
    }

    /** `save_configs`: back up and overwrite `gpt-load.yaml`, then `api.yaml`; returns both live paths. */
    method SaveConfigs(dump: Json -> string, timestamp: string, gptload: Json, uniapi: Json)
      returns (gptloadPath: string, uniapiPath: string)
      modifies this
      ensures files == SaveSpec(old(files), configDir, timestamp, dump(gptload), dump(uniapi))
      ensures gptloadPath == LivePath(configDir, GptLoadFile) && uniapiPath == LivePath(configDir, UniApiFile)
    {
      var backupDir := PathJoin(configDir, BackupDir);

      gptloadPath := PathJoin(configDir, GptLoadFile);
      var gptloadBackupPath := PathJoin(backupDir, "gpt-load_" + timestamp + ".yaml");
      assert gptloadBackupPath == BackupPath(configDir, "gpt-load", timestamp);
      if gptloadPath in files {
        var oldConfig := files[gptloadPath];
        files := files[gptloadBackupPath := oldConfig];
      }
      files := files[gptloadPath := dump(gptload)];

      uniapiPath := PathJoin(configDir, UniApiFile);
      var uniapiBackupPath := PathJoin(backupDir, "api_" + timestamp + ".yaml");
      assert uniapiBackupPath == BackupPath(configDir, "api", timestamp);
      if uniapiPath in files {
        var oldConfig := files[uniapiPath];
        files := files[uniapiBackupPath := oldConfig];
      }
      files := files[uniapiPath := dump(uniapi)];
    }
  }
}
