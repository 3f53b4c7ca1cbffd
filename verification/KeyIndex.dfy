/**
 * The idiom the in-memory repositories share: a map from a colon-joined key,
 * tenant first, to the id of a stored record.
 */
module KeyIndex {
  import opened Text
  import Outbox

  type Index = map<string, nat>

  function Key(tenantId: string, value: string): string {
    tenantId + [':'] + value
  }

  lemma KeyInjective(t: string, v: string, t': string, v': string)
    requires Outbox.IsUuid(t) && Outbox.IsUuid(t') && Key(t, v) == Key(t', v')
    ensures t == t' && v == v'
  {
    Outbox.UuidHasNoColon(t);
    Outbox.UuidHasNoColon(t');
    JoinInjective(':', t, v, t', v');
  }

  /** An index is the inverse of the keys of the stored records. */
  ghost predicate Inverse(index: Index, keys: map<nat, string>) {
    && (forall id {:trigger id in keys} | id in keys :: keys[id] in index && index[keys[id]] == id)
    && (forall k {:trigger k in index} | k in index :: index[k] in keys && keys[index[k]] == k)
  }

  lemma AddKeepsInverse(index: Index, keys: map<nat, string>, id: nat, k: string)
    requires Inverse(index, keys) && id !in keys && k !in index
    ensures Inverse(index[k := id], keys[id := k])
  {
  }

  /** The same for records kept in a sequence: the index gives each key its position. */
  ghost predicate Positions(index: Index, keys: seq<string>) {
    && (forall i | 0 <= i < |keys| :: keys[i] in index && index[keys[i]] == i)
    && (forall k {:trigger k in index} | k in index :: index[k] < |keys| && keys[index[k]] == k)
  }

  lemma AppendKeepsPositions(index: Index, keys: seq<string>, k: string)
    requires Positions(index, keys) && k !in index
    ensures Positions(index[k := |keys|], keys + [k])
  {
  }
}
