/**
 * The chart assembler: from the tracked list, the label axis and two
 * datasets per stock (price, then volume), coloured by the stock's position.
 */
module Chart {
  import opened Series
  import opened Stocks

  /** One line of the chart. `legendLabel` is its legend text; `hue` is the hue of both its border and its fill
      colour; `yAxisId` names the vertical scale it is drawn against. */
  datatype Dataset = Dataset(legendLabel: string, values: seq<real>, hue: real, yAxisId: string, tension: real)

  datatype ChartData = ChartData(labels: seq<int>, datasets: seq<Dataset>)

  const PriceAxis: string := "y"
  const VolumeAxis: string := "y1"
  /** Hue step between consecutive stocks, in degrees. */
  const HueStep: real := 137.5
  /** Extra hue of a stock's volume line over its price line, in degrees. */
  const VolumeHueOffset: real := 60.0
  const LineTension: real := 0.1

  function PriceHue(index: nat): real {
    index as real * HueStep
  }

  function VolumeHue(index: nat): real {
    PriceHue(index) + VolumeHueOffset
  }

  function Dates(data: seq<DailyRecord>): seq<int> {
    seq(|data|, k requires 0 <= k < |data| => data[k].date)
  }

  function Prices(data: seq<DailyRecord>): seq<real> {
    seq(|data|, k requires 0 <= k < |data| => data[k].price)
  }

  function Volumes(data: seq<DailyRecord>): seq<real> {
    seq(|data|, k requires 0 <= k < |data| => data[k].volume as real)
  }

  function PriceDataset(stock: TrackedStock, index: nat): Dataset {
    Dataset(stock.symbol + " Price", Prices(stock.data), PriceHue(index), PriceAxis, LineTension)
  }

  function VolumeDataset(stock: TrackedStock, index: nat): Dataset {
    Dataset(stock.symbol + " Volume", Volumes(stock.data), VolumeHue(index), VolumeAxis, LineTension)
  }

  /** The `flatMap` over the list, the stock at position k of `stocks` having
      index first + k. */
  function DatasetsFrom(stocks: seq<TrackedStock>, first: nat): (r: seq<Dataset>)
    ensures |r| == 2 * |stocks|
  {
    if stocks == [] then []
    else [PriceDataset(stocks[0], first), VolumeDataset(stocks[0], first)] + DatasetsFrom(stocks[1..], first + 1)
  }

  function BuildChart(stocks: seq<TrackedStock>): (chart: ChartData)
    ensures |chart.datasets| == 2 * |stocks|
    ensures stocks == [] ==> chart.labels == []
  {
    ChartData(if stocks == [] then [] else Dates(stocks[0].data), DatasetsFrom(stocks, 0))
  }

  lemma {:induction false} DatasetsFromAt(stocks: seq<TrackedStock>, first: nat, i: int)
    requires 0 <= i < |stocks|
    ensures DatasetsFrom(stocks, first)[2 * i] == PriceDataset(stocks[i], first + i)
    ensures DatasetsFrom(stocks, first)[2 * i + 1] == VolumeDataset(stocks[i], first + i)
  {
    if i > 0 {
      DatasetsFromAt(stocks[1..], first + 1, i - 1);
    }
  }

  /** The whole layout of the chart for N tracked stocks: the labels are the
      dates of the first stock's series (none when nothing is tracked), and
      there are 2N datasets, dataset 2i being stock i's prices on the price
      axis and dataset 2i+1 its volumes on the volume axis, each with one
      value per record. */
  lemma ChartLayout(stocks: seq<TrackedStock>)
    ensures var chart := BuildChart(stocks);
      && (stocks == [] ==> chart.labels == [])
      && (stocks != [] ==> |chart.labels| == |stocks[0].data|
                           && forall k :: 0 <= k < |chart.labels| ==> chart.labels[k] == stocks[0].data[k].date)
      && |chart.datasets| == 2 * |stocks|
    ensures forall i :: 0 <= i < |stocks| ==>
      var price, volume := BuildChart(stocks).datasets[2 * i], BuildChart(stocks).datasets[2 * i + 1];
      && price.legendLabel == stocks[i].symbol + " Price" && price.yAxisId == "y"
      && |price.values| == |stocks[i].data|
      && (forall k :: 0 <= k < |stocks[i].data| ==> price.values[k] == stocks[i].data[k].price)
      && volume.legendLabel == stocks[i].symbol + " Volume" && volume.yAxisId == "y1"
      && |volume.values| == |stocks[i].data|
      && (forall k :: 0 <= k < |stocks[i].data| ==> volume.values[k] == stocks[i].data[k].volume as real)
  {
    forall i | 0 <= i < |stocks|
      ensures BuildChart(stocks).datasets[2 * i] == PriceDataset(stocks[i], i)
      ensures BuildChart(stocks).datasets[2 * i + 1] == VolumeDataset(stocks[i], i)
    {
      DatasetsFromAt(stocks, 0, i);
    }
  }

  /** An empty list gives an empty chart. */
  lemma EmptyChart()
    ensures BuildChart([]) == ChartData([], [])
  {
  }

  /** Colours depend on the stock's position only: any two lists with a stock
      at position i give that stock's two datasets the same hues, the price
      hue being i * 137.5 degrees and the volume hue 60 degrees more. */
  lemma HueDependsOnlyOnIndex(stocks: seq<TrackedStock>, others: seq<TrackedStock>, i: int)
    requires 0 <= i < |stocks| && i < |others|
    ensures BuildChart(stocks).datasets[2 * i].hue == BuildChart(others).datasets[2 * i].hue == i as real * 137.5
    ensures BuildChart(stocks).datasets[2 * i + 1].hue == BuildChart(others).datasets[2 * i + 1].hue == i as real * 137.5 + 60.0
  {
    DatasetsFromAt(stocks, 0, i);
    DatasetsFromAt(others, 0, i);
  }
}
