/**
 * The usage merge of the non-streaming chat path (api.py:191, 214-216):
 * a zeroed UsageInfo whose fields are each incremented, one `setattr` per
 * field, by the engine's reported usage.
 */
module UsageAccumulator {
  import opened Schema

  /** The field names of UsageInfo, in declaration order (api.py:100-102). */
  datatype UsageKey = PromptTokens | TotalTokens | CompletionTokens

  /** The order in which `UsageInfo.dict().items()` visits the fields. */
  const KEYS: seq<UsageKey> := [PromptTokens, TotalTokens, CompletionTokens]

  /** `getattr(u, key)` on a usage value. */
  function Field(u: Usage, key: UsageKey): int
  {
    match key
    case PromptTokens => u.promptTokens
    case TotalTokens => u.totalTokens
    case CompletionTokens => u.completionTokens
  }

  /** A UsageInfo with every field at its default, 0 (api.py:100-102). */
  function Zero(): (z: Usage)
    ensures forall key :: Field(z, key) == 0
  {
    Usage(0, 0, 0)
  }

  /** Field-by-field sum of two usage records. */
  function Add(a: Usage, b: Usage): (r: Usage)
    ensures forall key :: Field(r, key) == Field(a, key) + Field(b, key)
  {
    Usage(a.promptTokens + b.promptTokens, a.totalTokens + b.totalTokens,
          a.completionTokens + b.completionTokens)
  }

  /** Two usage values agreeing on every field are the same value. */
  lemma FieldsDetermineUsage(a: Usage, b: Usage)
    requires forall key :: Field(a, key) == Field(b, key)
    ensures a == b
  {
    assert Field(a, PromptTokens) == Field(b, PromptTokens);
    assert Field(a, TotalTokens) == Field(b, TotalTokens);
    assert Field(a, CompletionTokens) == Field(b, CompletionTokens);
  }

  /** Merging into a zeroed record reports the engine's usage unchanged. */
  lemma AddZero(u: Usage)
    ensures Add(Zero(), u) == u
  {
    FieldsDetermineUsage(Add(Zero(), u), u);
  }

  /** The merge is associative, so repeated merges accumulate totals. */
  lemma AddAssociative(a: Usage, b: Usage, c: Usage)
    ensures Add(Add(a, b), c) == Add(a, Add(b, c))
  {
    FieldsDetermineUsage(Add(Add(a, b), c), Add(a, Add(b, c)));
  }

  /** Two merges into a zeroed record: {5,10,15} then {2,3,5} give {7,13,20}. */
  lemma TwoMergesExample()
    ensures Add(Add(Zero(), Usage(5, 15, 10)), Usage(2, 5, 3)) == Usage(7, 20, 13)
  {
    AddZero(Usage(5, 15, 10));
  }

  /** The mutable UsageInfo object the handler builds and updates in place. */
  class UsageInfo {
    var promptTokens: int
    var totalTokens: int
    var completionTokens: int

    /** The record the object currently holds. */
    function Value(): Usage
      reads this
    {
      Usage(promptTokens, totalTokens, completionTokens)
    }

    /** `UsageInfo()`: every counter at 0. */
    constructor ()
      ensures Value() == Zero()
    {
      promptTokens, totalTokens, completionTokens := 0, 0, 0;
    }

    /** `getattr(self, key)`. */
    function Get(key: UsageKey): (v: int)
      reads this
      ensures v == Field(Value(), key)
    {
      match key
      case PromptTokens => promptTokens
      case TotalTokens => totalTokens
      case CompletionTokens => completionTokens
    }

    /** `setattr(self, key, v)`: that field becomes v, the others keep their value. */
    method Set(key: UsageKey, v: int)
      modifies this
      ensures Field(Value(), key) == v
      ensures forall other :: other != key ==> Field(Value(), other) == Field(old(Value()), other)
    {
      match key
      case PromptTokens => promptTokens := v;
      case TotalTokens => totalTokens := v;
      case CompletionTokens => completionTokens := v;
    }

    /**
     * The loop of api.py:215-216: for each field of `task`, add its value
     * to the same field of this object.
     */
    method Accumulate(task: Usage)
      modifies this
      ensures Value() == Add(old(Value()), task)
    {
      for i := 0 to |KEYS|
        invariant forall j :: 0 <= j < i ==>
          Field(Value(), KEYS[j]) == Field(old(Value()), KEYS[j]) + Field(task, KEYS[j])
        invariant forall j :: i <= j < |KEYS| ==> Field(Value(), KEYS[j]) == Field(old(Value()), KEYS[j])
      {
        var key := KEYS[i];
        Set(key, Get(key) + Field(task, key));
      }
      forall key ensures Field(Value(), key) == Field(Add(old(Value()), task), key) {
        var j := match key case PromptTokens => 0 case TotalTokens => 1 case CompletionTokens => 2;
        assert KEYS[j] == key;
      }
      FieldsDetermineUsage(Value(), Add(old(Value()), task));
    }
  }
}
