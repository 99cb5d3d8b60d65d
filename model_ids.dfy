/** modelIds of util.go: the ids of a list of models, in order. */
module Records {

  /** A model, as far as modelIds sees it: something with an id. */
  datatype Model = Model(id: string)
  {
    /** Model.GetId */
    function GetId(): string {
      id
    }
  }

  /**
   * modelIds (util.go:280-286): fill a slice of the same length with each
   * model's id.
   */
  method ModelIds(models: seq<Model>) returns (ids: seq<string>)
    ensures |ids| == |models|
    ensures forall i :: 0 <= i < |models| ==> ids[i] == models[i].id
  {
    var results := new string[|models|];
    for i := 0 to |models|
      invariant forall k :: 0 <= k < i ==> results[k] == models[k].GetId()
    {
      results[i] := models[i].GetId();
    }
    ids := results[..];
  }
}
