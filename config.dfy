/**
  `load_cfg`: the settings file, when present, is completed with every default
  it lacks; without a file the defaults are used as they are.
*/
module Config {
  import opened Base

  /** A JSON value as `json.load` produces it. */
  datatype Json =
    | JStr(s: string)
    | JInt(i: int)
    | JNum(r: real)
    | JBool(b: bool)
    | JList(items: seq<Json>)
    | JObject(fields: map<string, Json>)
    | JNull

  type Cfg = map<string, Json>

  /** `DEFAULT_CFG`. */
  const Defaults: Cfg := map[
    "TARGET_TITLE_KEYWORD" := JStr("Chrome"),
    "WINDOW_POSITION_X" := JInt(0),
    "WINDOW_POSITION_Y" := JInt(0),
    "WINDOW_WIDTH" := JInt(1280),
    "WINDOW_HEIGHT" := JInt(720),
    "TARGET_IMAGE_PATH" := JStr("target.png"),
    "CHARACTER_IMAGE_PATH" := JStr("character.png"),
    "ARROW_IMAGE_PATH" := JStr("arrow.png"),
    "ICON_SEARCH_REGION" := JList([JInt(0), JInt(0), JInt(800), JInt(600)]),
    "CHARACTER_SEARCH_REGION" := JList([JInt(0), JInt(0), JInt(800), JInt(600)]),
    "ICON_CONFIDENCE" := JNum(0.8),
    "CHARACTER_CONFIDENCE" := JNum(0.8),
    "ICON_SCALE_RANGE" := JList([JNum(0.8), JNum(1.2)]),
    "ICON_SCALE_STEPS" := JInt(7),
    "CHARACTER_SCALE_RANGE" := JList([JNum(0.8), JNum(1.2)]),
    "CHARACTER_SCALE_STEPS" := JInt(7),
    "ARROW_SEARCH_RADIUS" := JInt(140),
    "ARROW_MIN_AREA" := JInt(80),
    "ARROW_DETECTION_TIMEOUT" := JNum(3.0),
    "ARROW_POLL_INTERVAL" := JNum(0.08),
    "ARROW_MIN_HITS" := JInt(5),
    "DRAG_DISTANCE" := JInt(180),
    "DRAG_HOLD_SECONDS" := JNum(0.2),
    "DRAG_BUTTON" := JStr("left"),
    "MAX_ARROW_ATTEMPTS" := JInt(6),
    "MAIN_SEARCH_INTERVAL" := JNum(0.6),
    "PREVENTIVE_CLICK_DELAY" := JNum(0.2),
    "POST_MOVE_DELAY" := JNum(0.25),
    "FINAL_CHECK_DELAY" := JNum(0.2),
    "ARROW_SEARCH_INTERVAL" := JNum(0.2)
  ]

  /** The settings after the merge: every key of either map, the file's value where it has one. */
  function Merged(data: Cfg, defaults: Cfg): (r: Cfg)
    ensures r.Keys == data.Keys + defaults.Keys
    ensures forall k :: k in data ==> r[k] == data[k]
    ensures forall k :: k in defaults && k !in data ==> r[k] == defaults[k]
  {
    map k | k in data.Keys + defaults.Keys :: if k in data then data[k] else defaults[k]
  }

  /** The loop of `load_cfg` that fills in the missing keys of the loaded data. */
  method FillMissing(data: Cfg, defaults: Cfg) returns (r: Cfg)
    ensures r.Keys == data.Keys + defaults.Keys
    ensures forall k :: k in data ==> r[k] == data[k]
    ensures forall k :: k in defaults && k !in data ==> r[k] == defaults[k]
    ensures r == Merged(data, defaults)
  {
    r := data;
    var todo := defaults.Keys;
    while todo != {}
      invariant todo <= defaults.Keys
      invariant r.Keys == data.Keys + (defaults.Keys - todo)
      invariant forall k :: k in data ==> r[k] == data[k]
      invariant forall k :: k in defaults.Keys - todo && k !in data ==> r[k] == defaults[k]
      decreases todo
    {
      var k :| k in todo;
      if k !in r {
        r := r[k := defaults[k]];
      }
      todo := todo - {k};
    }
  }

  /** `load_cfg()`: `None` stands for a missing settings file. */
  method LoadCfg(file: Option<Cfg>) returns (cfg: Cfg)
    ensures cfg == Loaded(file)
    ensures Defaults.Keys <= cfg.Keys
    ensures file.None? ==> cfg == Defaults
    ensures file.Some? ==> forall k :: k in file.value ==> cfg[k] == file.value[k]
  {
    match file
    case None =>
      cfg := Defaults;
    case Some(data) =>
      cfg := FillMissing(data, Defaults);
  }

  function Loaded(file: Option<Cfg>): Cfg {
    match file
    case None => Defaults
    case Some(data) => Merged(data, Defaults)
  }

  /**
    Loading is idempotent: merging the defaults into settings that already went
    through the merge changes nothing, and a file holding exactly the defaults
    loads as the defaults.
  */
  lemma MergeIdempotent(data: Cfg)
    ensures Merged(Merged(data, Defaults), Defaults) == Merged(data, Defaults)
    ensures Loaded(Some(Defaults)) == Loaded(None)
  {
  }
}
