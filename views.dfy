/**
 The plugin object and its two chart views. The plugin keeps the vault total
 and the daily history as fields, replaced by each scan, and the chart
 settings the settings-based view reads and writes. The stand-alone view
 keeps its own cumulative flag and its select value. Drawing, the status
 bar and saving the settings are outside the model.
 */
module Views {
  import opened Collections
  import opened DailyHistory
  import opened Segmentation

  /** The plugin: the vault total, the daily history and the chart settings. */
  class WordCountPlugin {
    var vaultWordCount: nat
    var dailyWordHistory: map<string, nat>
    var chartMode: string
    var isCumulative: bool

    /** A freshly loaded plugin: total 0, an empty history, and the chart mode and flag as their first uses read them. */
    constructor()
      ensures vaultWordCount == 0 && dailyWordHistory == map[]
      ensures chartMode == "default" && !isCumulative
    {
      vaultWordCount := 0;
      dailyWordHistory := map[];
      chartMode := "default";
      isCumulative := false;
    }

    /** Recounts every markdown file, with or without a `stat`, into the vault total. */
    method UpdateVaultWordCount(files: seq<FileRecord>)
      modifies this
      ensures vaultWordCount == VaultTotal(files)
      ensures dailyWordHistory == old(dailyWordHistory)
      ensures chartMode == old(chartMode) && isCumulative == old(isCumulative)
    {
      var total := VaultWordCount(files);
      vaultWordCount := total;
    }

    /**
     Rebuilds the daily history from scratch and replaces the old one: the new
     history depends on the files alone.
     */
    method RecordDailyWordCount(files: seq<FileRecord>)
      modifies this
      ensures dailyWordHistory == History(files)
      ensures vaultWordCount == old(vaultWordCount)
      ensures chartMode == old(chartMode) && isCumulative == old(isCumulative)
    {
      var dayWordMap := BuildDailyHistory(files);
      dailyWordHistory := dayWordMap;
    }
  }

  /** After a full scan, the words in the history never exceed the vault total. */
  method Rescan(plugin: WordCountPlugin, files: seq<FileRecord>)
    modifies plugin
    ensures plugin.vaultWordCount == VaultTotal(files)
    ensures plugin.dailyWordHistory == History(files)
    ensures MapTotal(plugin.dailyWordHistory) <= plugin.vaultWordCount
  {
    plugin.UpdateVaultWordCount(files);
    plugin.RecordDailyWordCount(files);
    HistoryWithinVault(files);
  }

  /** The settings-based view: the mode and the cumulative flag live in the plugin's settings. */
  class WordCountView {
    const plugin: WordCountPlugin

    constructor(plugin: WordCountPlugin)
      ensures this.plugin == plugin
    {
      this.plugin := plugin;
    }

    /** The total shown above the chart, labelled the vault total: the sum of the history's values. */
    method TotalWords() returns (totalWords: nat)
      ensures totalWords == MapTotal(plugin.dailyWordHistory)
    {
      totalWords := TotalWordCount(plugin.dailyWordHistory);
    }

    /** The series drawn for the current settings. */
    method Render(allDays: seq<string>) returns (labels: seq<string>, data: seq<nat>)
      requires SortedKeysOf(allDays, plugin.dailyWordHistory)
      ensures labels == SeriesLabels(ModeOf(plugin.chartMode), allDays)
      ensures data == if plugin.isCumulative
        then PrefixSums(SeriesValues(ModeOf(plugin.chartMode), allDays, plugin.dailyWordHistory))
        else SeriesValues(ModeOf(plugin.chartMode), allDays, plugin.dailyWordHistory)
      ensures |labels| == |data|
    {
      labels, data := RenderChart(ModeOf(plugin.chartMode), plugin.isCumulative, allDays, plugin.dailyWordHistory);
    }

    /** The refresh button: the total is recomputed and the chart drawn again, changing nothing. */
    method Refresh(allDays: seq<string>) returns (totalWords: nat, labels: seq<string>, data: seq<nat>)
      requires SortedKeysOf(allDays, plugin.dailyWordHistory)
      ensures totalWords == MapTotal(plugin.dailyWordHistory)
      ensures labels == SeriesLabels(ModeOf(plugin.chartMode), allDays)
      ensures data == if plugin.isCumulative
        then PrefixSums(SeriesValues(ModeOf(plugin.chartMode), allDays, plugin.dailyWordHistory))
        else SeriesValues(ModeOf(plugin.chartMode), allDays, plugin.dailyWordHistory)
      ensures plugin.isCumulative && |data| > 0 ==> data[|data| - 1] == totalWords
    {
      totalWords := TotalWords();
      labels, data := Render(allDays);
      SeriesTotalIsHistoryTotal(ModeOf(plugin.chartMode), allDays, plugin.dailyWordHistory);
    }

    /** A new select value is stored as the chart mode and the chart is drawn again. */
    method OnSelect(value: string, allDays: seq<string>) returns (labels: seq<string>, data: seq<nat>)
      requires SortedKeysOf(allDays, plugin.dailyWordHistory)
      modifies plugin
      ensures plugin.chartMode == value
      ensures plugin.isCumulative == old(plugin.isCumulative)
      ensures plugin.dailyWordHistory == old(plugin.dailyWordHistory)
      ensures plugin.vaultWordCount == old(plugin.vaultWordCount)
      ensures labels == SeriesLabels(ModeOf(value), allDays)
      ensures data == if plugin.isCumulative
        then PrefixSums(SeriesValues(ModeOf(value), allDays, plugin.dailyWordHistory))
        else SeriesValues(ModeOf(value), allDays, plugin.dailyWordHistory)
    {
      plugin.chartMode := value;
      labels, data := Render(allDays);
    }

    /** The toggle button flips the stored cumulative flag and draws again. */
    method OnToggle(allDays: seq<string>) returns (labels: seq<string>, data: seq<nat>)
      requires SortedKeysOf(allDays, plugin.dailyWordHistory)
      modifies plugin
      ensures plugin.isCumulative == !old(plugin.isCumulative)
      ensures plugin.chartMode == old(plugin.chartMode)
      ensures plugin.dailyWordHistory == old(plugin.dailyWordHistory)
      ensures plugin.vaultWordCount == old(plugin.vaultWordCount)
      ensures labels == SeriesLabels(ModeOf(plugin.chartMode), allDays)
      ensures data == if plugin.isCumulative
        then PrefixSums(SeriesValues(ModeOf(plugin.chartMode), allDays, plugin.dailyWordHistory))
        else SeriesValues(ModeOf(plugin.chartMode), allDays, plugin.dailyWordHistory)
    {
      plugin.isCumulative := !plugin.isCumulative;
      labels, data := Render(allDays);
    }
  }

  /** The stand-alone view: its cumulative flag and its select value are its own. */
  class VisualizationView {
    const plugin: WordCountPlugin
    var isCumulative: bool
    var selected: string

    /** The view opens in plain mode with the default segments selected. */
    constructor(plugin: WordCountPlugin)
      ensures this.plugin == plugin
      ensures !isCumulative && selected == "default"
    {
      this.plugin := plugin;
      isCumulative := false;
      selected := "default";
    }

    /** The series drawn for `mode` and the view's own cumulative flag. */
    method RenderChart(mode: string, allDays: seq<string>) returns (labels: seq<string>, data: seq<nat>)
      requires SortedKeysOf(allDays, plugin.dailyWordHistory)
      ensures labels == SeriesLabels(ModeOf(mode), allDays)
      ensures data == if isCumulative
        then PrefixSums(SeriesValues(ModeOf(mode), allDays, plugin.dailyWordHistory))
        else SeriesValues(ModeOf(mode), allDays, plugin.dailyWordHistory)
      ensures |labels| == |data|
    {
      labels, data := Segmentation.RenderChart(ModeOf(mode), isCumulative, allDays, plugin.dailyWordHistory);
    }

    /** Choosing in the select, or pressing refresh, draws the chosen mode. */
    method OnSelect(value: string, allDays: seq<string>) returns (labels: seq<string>, data: seq<nat>)
      requires SortedKeysOf(allDays, plugin.dailyWordHistory)
      modifies this
      ensures selected == value && isCumulative == old(isCumulative)
      ensures labels == SeriesLabels(ModeOf(value), allDays)
      ensures data == if isCumulative
        then PrefixSums(SeriesValues(ModeOf(value), allDays, plugin.dailyWordHistory))
        else SeriesValues(ModeOf(value), allDays, plugin.dailyWordHistory)
    {
      selected := value;
      labels, data := RenderChart(selected, allDays);
    }

    /** The toggle flips the view's flag and draws the selected mode again. */
    method OnToggle(allDays: seq<string>) returns (labels: seq<string>, data: seq<nat>)
      requires SortedKeysOf(allDays, plugin.dailyWordHistory)
      modifies this
      ensures isCumulative == !old(isCumulative) && selected == old(selected)
      ensures labels == SeriesLabels(ModeOf(selected), allDays)
      ensures data == if isCumulative
        then PrefixSums(SeriesValues(ModeOf(selected), allDays, plugin.dailyWordHistory))
        else SeriesValues(ModeOf(selected), allDays, plugin.dailyWordHistory)
    {
      isCumulative := !isCumulative;
      labels, data := RenderChart(selected, allDays);
    }
  }

  /** Pressing the toggle twice restores the view's original mode. */
  method ToggleTwice(view: VisualizationView, allDays: seq<string>)
    requires SortedKeysOf(allDays, view.plugin.dailyWordHistory)
    modifies view
    ensures view.isCumulative == old(view.isCumulative)
    ensures view.selected == old(view.selected)
  {
    var _, _ := view.OnToggle(allDays);
    var _, _ := view.OnToggle(allDays);
  }
}
