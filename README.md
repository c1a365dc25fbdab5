# PySyft plan slot bookkeeping, in Dafny

This project models the slot bookkeeping behind PySyft's plans: placeholders,
plan states, procedures and the parts of `Plan` that number slots and cache
sends. Each part is proved against a specification.

A **PlaceHolder** is an identity-bearing slot that can be bound
("instantiated") to a tensor. Tensors are opaque values with an id and an
optional wrapped child.

- A **State** is an ordered list of placeholders.
  - `read` promotes them into the enclosing plan that is being built.
  - `set_` rebinds them by id.
  - `detail` registers each value with a worker and binds the values to the placeholders by position.
- A **Procedure** holds three shared Python lists: the operations, the input placeholders and the output placeholders.
- A **Plan** owns the slot counter `var_count`, the `placeholders` dictionary from tensor id to placeholder, and the input, output and state lists. It also keeps a per-location cache of sent pointers.

Modules follow the source files:

- `Values`: ids, `Option`, `Result`, errors, tensors, the id provider and mutable lists.
- `Strings`: `str(n)`, `in` on strings and `"-".join`.
- `Dicts`: insertion-ordered dictionaries.
- `Placeholders`: `placeholder.py` and the global deserialisation table `syft.hook.placeholders`.
- `StateSpec`: pure specifications of what the state operations compute.
- `Procedures`: `procedure.py`.
- `PlanHelpers`: the parts of `plan.py` that touch no plan field.
- `Plans`: workers, `State` and `Plan`. They refer to each other, so they share one module.

Modelling choices:

- Objects that Python updates in place are classes with those fields:
  - placeholders (`tags`, `child`);
  - states (`state_placeholders`);
  - plans;
  - workers (`init_plan`, the object registry, the record of sends);
  - the table;
  - Python lists shared between procedures.
- A Python dict is the record of assignments made to it. Its mapping, key order and values are read off that record.
- A tag set is a duplicate-free sequence in insertion order, which stands for Python's set order.
- The msgpack codec is the identity on ids, tags, descriptions, values and operations.
- A placeholder's wire form is the triple (id, tags, description), and a list of those is detailed element by element.
- The id provider `syft.ID_PROVIDER` is a counter, so each id it hands out is new.
- A placeholder's owner is the owning worker's id.
- Calls that raise are modelled as `Result` values:
  - `None.id` raises `AttributeError("id")`.
  - A missing `_tmp_result_ids` raises `AttributeError("_tmp_result_ids")`.
  - Unsupported argument types raise `TypeError`.
  - Bad shapes raise `ValueError`.
  - Sending an unbuilt plan raises `RuntimeError`.
- Effects made before the raise are kept, as the code does.

`State.detail` zips placeholders with values and silently truncates to the
shorter list; the model does the same.

## Model

| member | source | states |
|---|---|---|
| Values.Unwrap | syft/frameworks/torch/tensors/interpreters/placeholder.py:35-38 | a wrapper with a child gives that child; any other tensor (not a wrapper, or a wrapper without a child) is kept as it is |
| Values.IdProvider.Pop | syft/frameworks/torch/tensors/interpreters/placeholder.py:25 | each pop returns the counter and advances it, so no id is handed out twice |
| Strings.NatToStringDigits | syft/messaging/plan/plan.py:208 | `str(n)` is a non-empty string of digits, longer than one digit exactly from 10 on, and starting with `0` only for 0 itself, so it is the decimal form without leading zeros |
| Strings.ParseNatToString | syft/messaging/plan/plan.py:208 | `str(n)` read back as a decimal number is `n` |
| Strings.NatToStringInjective | syft/messaging/plan/plan.py:208 | distinct numbers format to distinct strings |
| Strings.SlotTagShape | syft/messaging/plan/plan.py:208 | a slot tag `#{n}` is `#` followed by at least one digit |
| Strings.SlotTagInjective | syft/messaging/plan/plan.py:208 | distinct slots get distinct slot tags |
| Strings.ContainsWitness | syft/messaging/plan/plan.py:586 | when `keyword in tag` holds, the keyword occurs at some position of the tag |
| Strings.OccursContains | syft/messaging/plan/plan.py:586 | an occurrence at any position makes `keyword in tag` true |
| Strings.ContainsIffOccurs | syft/messaging/plan/plan.py:586 | `keyword in tag` holds exactly when the keyword occurs somewhere in the tag |
| Dicts.Dict.Keys | syft/messaging/plan/plan.py:239 | the key order lists each key of the mapping exactly once |
| Dicts.Dict.Values | syft/messaging/plan/plan.py:239 | `values()` gives, in key order, what each key maps to |
| Dicts.PutEntries | syft/messaging/plan/plan.py:209 | `d[k] = v` maps `k` to `v` and leaves every other key |
| Dicts.PutKeys | syft/messaging/plan/plan.py:209 | a new key goes last in the key order; an existing key keeps its place |
| Dicts.ValuesMembers | syft/messaging/plan/plan.py:239 | a value is among `values()` exactly when some key maps to it |
| Dicts.Empty | syft/messaging/plan/plan.py:129 | `{}` has no entries and no keys |
| Dicts.PutAllSnoc | syft/messaging/plan/plan.py:137-143 | a run of assignments is the assignments made one at a time |
| Dicts.PutAllKeys | syft/messaging/plan/plan.py:137-143 | a run of assignments adds exactly the assigned keys and leaves every other entry |
| Dicts.PutAllLastWins | syft/messaging/plan/plan.py:137-143 | after a run of assignments each key holds its last assigned value |
| Placeholders.AddTag | syft/messaging/plan/plan.py:213 | `tags.add(t)` yields the old tags plus `t` and keeps the tags duplicate-free |
| Placeholders.AddTags | syft/messaging/plan/state.py:68 | `tag(*ts)` yields the old tags plus each of `ts`, duplicate-free |
| Placeholders.PromotedTagsExact | syft/messaging/plan/state.py:67-68 | clearing the tags and tagging `#inner`, `#state`, `#{n}` gives exactly these three distinct tags |
| Placeholders.Placeholder.constructor | syft/frameworks/torch/tensors/interpreters/placeholder.py:10-26 | a new placeholder is unbound, keeps owner, tags and description, and keeps a truthy id or else draws a fresh one |
| Placeholders.Placeholder.Instantiate | syft/frameworks/torch/tensors/interpreters/placeholder.py:28-47 | binds the tensor with one wrapper layer stripped and returns the placeholder itself; `get()` afterwards gives back exactly that binding |
| Placeholders.Placeholder.Copy | syft/frameworks/torch/tensors/interpreters/placeholder.py:63-71 | a new object with the same tags and child, no owner or description, and an id newly drawn from the provider, so different from the original's whenever that one was drawn earlier |
| Placeholders.Placeholder.Simplify | syft/frameworks/torch/tensors/interpreters/placeholder.py:73-89 | the wire form is (id, tags, description); child and owner are dropped |
| Placeholders.WiresOf | syft/messaging/plan/state.py:130 | simplifying a placeholder list simplifies each element in order |
| Placeholders.Detail | syft/frameworks/torch/tensors/interpreters/placeholder.py:91-115 | on an unseen tag key it stores and returns a new unbound placeholder with the wire's id (unless falsy), tags and description, owned by the worker; on a seen key it returns the stored object and leaves the table as it was |
| Placeholders.DetailSimplified | syft/frameworks/torch/tensors/interpreters/placeholder.py:85-115 | on a table without p's tag key, `detail(simplify(p))` is a new unbound placeholder with p's tags and description and p's id when it is truthy |
| Placeholders.DetailList | syft/messaging/plan/state.py:143 | each wire of a list comes back as the object the table holds for its key; old entries stay; only keys of the list are added, each with a new unbound placeholder made from its wire |
| Placeholders.DetailedWires | syft/frameworks/torch/tensors/interpreters/placeholder.py:85-115 | when none of the wires' tag keys is in the table at the start, every id is truthy and one key means one wire, each placeholder detailed from the list is owned by the worker and simplifies back to its wire; with distinct keys no placeholder is returned twice |
| Placeholders.LastPairedDistinct | syft/messaging/plan/state.py:149-150 | without repeated placeholders, `zip` pairs placeholder i with value i |
| Placeholders.LastPairedAbsent | syft/messaging/plan/state.py:149-150 | a placeholder beyond the shorter list is paired with nothing |
| Placeholders.InstantiateZip | syft/messaging/plan/procedure.py:55-56 | after the `zip` loop each placeholder holds the unwrapped value of its last pair, or its old child when it has none; without repeats placeholder i holds value i for i below the shorter length |
| StateSpec.LocalChildrenAllLocal | syft/messaging/plan/state.py:73-79 | with no `#inner` placeholder, `read` returns every child in order, as `tensors` does |
| StateSpec.LocalChildrenSkipsInner | syft/messaging/plan/state.py:65-79 | appended `#inner` copies do not change what `read` returns |
| StateSpec.LocalChildrenMembers | syft/messaging/plan/state.py:75-78 | a value is returned by `read` exactly when a placeholder without `#inner` holds it |
| StateSpec.CloneStateDict | syft/messaging/plan/state.py:46-52 | `clone_state_dict` succeeds exactly when every placeholder is bound, and raises AttributeError on a None child |
| StateSpec.CloneStateDictKeys | syft/messaging/plan/state.py:46-52 | the keys of `clone_state_dict()` are exactly the placeholder ids |
| StateSpec.CloneStateDictValues | syft/messaging/plan/state.py:50-52 | each id maps to the clone of the child of the last placeholder with that id |
| StateSpec.SetCloneStateDict | syft/messaging/plan/plan.py:309 | `set_(clone_state_dict())` with distinct ids binds each placeholder to the unwrapped clone of its own child |
| StateSpec.RegisterAll | syft/messaging/plan/state.py:146-147 | registration keeps the old ids and adds each value's id |
| StateSpec.RegisterAllKeys | syft/messaging/plan/state.py:146-147 | registration adds exactly the values' ids |
| StateSpec.RegisterAllValues | syft/messaging/plan/state.py:146-147 | each id holds the last value registered under it; other entries stay |
| StateSpec.FirstNone | syft/messaging/plan/state.py:146-147 | the position where registration raises: all elements before it are present, the one at it is None |
| PlanHelpers.MapShape | syft/messaging/plan/plan.py:166 | a mapped shape keeps its length, turns -1 into 1 and keeps every other dimension; a valid shape maps to non-negative dimensions |
| PlanHelpers.CreatePlaceholders | syft/messaging/plan/plan.py:157-168 | raises ValueError for the first shape with a dimension below -1, exactly when there is one; otherwise maps every shape, keeping their number |
| PlanHelpers.IndexOf | syft/messaging/plan/plan.py:217 | `ids.index(x)` is the position of the first occurrence |
| PlanHelpers.TagSortKey | syft/messaging/plan/plan.py:582-591 | the key is the first tag containing the keyword, or a returned TypeError value exactly when no tag contains it |
| PlanHelpers.ReplacedSupported | syft/messaging/plan/plan.py:222-235 | only values built from containers, tensors and scalars have a replacement |
| PlanHelpers.ReplacedGrow | syft/messaging/plan/plan.py:222-235 | a replacement stays valid while the placeholder table only grows |
| PlanHelpers.TagMatchesMembers | syft/messaging/plan/plan.py:241-244 | the inner loop reports the placeholder exactly when one of its tags contains the search tag |
| PlanHelpers.SearchMatchesMembers | syft/messaging/plan/plan.py:240-244 | the middle loop reports the placeholder exactly when one of its tags contains one of the search tags |
| PlanHelpers.FoundMembers | syft/messaging/plan/plan.py:237-246 | `find_placeholders` reports exactly the placeholders that have a tag containing a search tag |
| Plans.Worker.RegisterObj | syft/messaging/plan/state.py:147 | the registry maps the given id to the object |
| Plans.Worker.RegisterEach | syft/messaging/plan/state.py:146-147 | registers the elements in order up to the first None; succeeds exactly when there is none |
| Plans.Worker.SendPlan | syft/messaging/plan/plan.py:470-478 | sending yields a new pointer to the location whose remote id defaults to the plan's id, and records the send |
| Plans.CopyRetagged | syft/messaging/plan/state.py:66-68 | a fresh copy with a new id, the same child and tags exactly `#inner`, `#state`, `#{n}` |
| Plans.State.constructor | syft/messaging/plan/state.py:19-21 | a state holds its owner and placeholder list |
| Plans.State.Tensors | syft/messaging/plan/state.py:35-44 | the children of all placeholders, one per placeholder, in order, unfiltered |
| Plans.State.Copy | syft/messaging/plan/state.py:54-56 | a distinct state with the same owner and the same placeholder objects in the same order |
| Plans.State.LocalTensors | syft/messaging/plan/state.py:73-79 | the children of the placeholders without `#inner`, in order |
| Plans.State.Read | syft/messaging/plan/state.py:58-79 | without a plan under construction, or when that plan's state is this one, nothing changes and the local children are returned; otherwise the parent's bookkeeping is `Plans.Plan.Promoted`; the state's own placeholders are untouched |
| Plans.State.Set | syft/messaging/plan/state.py:81-90 | every placeholder whose id is a key gets the unwrapped value; the rest keep their child; unmatched keys are ignored; the list is unchanged |
| Plans.State.SetKey | syft/messaging/plan/state.py:88-90 | every placeholder with the id takes the unwrapped value and the others keep theirs |
| Plans.State.Detail | syft/messaging/plan/state.py:135-153 | placeholders come back through the table; elements up to the first None are registered under their own ids, and a None raises AttributeError exactly when present; otherwise a new state owned by the worker holds the detailed list, bound pairwise with `zip` semantics; table placeholders not in that list keep their child, and on the error path every table placeholder keeps its child |
| Plans.State.Bind | syft/messaging/plan/state.py:149-153 | the `zip` binding and a new state owned by the worker holding exactly the given list |
| Plans.State.Simplify | syft/messaging/plan/state.py:124-133 | the wire triples of the placeholders and their children, in order; `Plans.State.RoundTrip` shows `detail` rebuilds the state from them |
| Plans.State.RoundTrip | syft/messaging/plan/state.py:124-153 | `detail(simplify(s))`, when no tag key of s is in the table, each key is one placeholder, every id is truthy and every placeholder is bound, succeeds with a new state of the same length owned by the worker; its placeholder i is new, has s's placeholder i's id, tags and description, and is bound to the unwrapped child of s's placeholder i; the children are registered under their ids; every placeholder already in the table keeps its child |
| Plans.State.DetailNew | syft/messaging/plan/state.py:135-153 | `detail` of wires whose tag keys are all new, with truthy ids and present values: a new state whose placeholder i simplifies to wire i, is owned by the worker and holds unwrapped value i; the values are registered; every placeholder already in the table keeps its child |
| Plans.NewLocationsExactlyOnce | syft/messaging/plan/plan.py:424-435 | the plan is sent exactly to the uncached locations, each once |
| Plans.CachedStep | syft/messaging/plan/plan.py:425-433 | one location keeps a cached pointer or caches a new one; its remote id is the one the cache at the start gives |
| Plans.SentStep | syft/messaging/plan/plan.py:425-435 | the same step with the sends and the collected remote ids |
| Plans.InputTagNew | syft/messaging/plan/plan.py:213 | adding `#input` to a fresh slot tag appends it |
| Plans.OutputTagNew | syft/messaging/plan/plan.py:217 | adding `#output-{i}` appends it after the slot and input tags |
| Plans.Plan.constructor | syft/messaging/plan/plan.py:94-155 | starts with no slots and an empty pointer cache, uses the given state or a new one, and makes state tensor k slot k+1 tagged `#state`, `#{k+1}`, bound to the tensor, appended to the state and stored under its id |
| Plans.Plan.RegisterStateTensors | syft/messaging/plan/plan.py:137-143 | the state-tensor loop: each tensor in turn becomes the next slot, and the counter rises by their number |
| Plans.Plan.PromoteAll | syft/messaging/plan/state.py:65-71 | the promotion loop leaves the parent as `Plans.Plan.Promoted` says |
| Plans.Plan.PromoteBound | syft/messaging/plan/state.py:65-71 | while children are bound, copy k goes into slot c+k+1, is appended and is stored under its child's id, and the counter rises by one each |
| Plans.Plan.Promote | syft/messaging/plan/state.py:66-71 | one copy is appended; unless its child is None it is stored under the child's id and counted |
| Plans.Plan.RegisterStateTensor | syft/messaging/plan/plan.py:139-143 | the five steps that make a tensor the next state slot |
| Plans.Plan.SetTensorAttribute | syft/messaging/plan/plan.py:313-324 | setting a tensor attribute stores it and makes it the next state slot |
| Plans.Plan.AddPlaceholder | syft/messaging/plan/plan.py:206-220 | a seen id returns the stored placeholder and changes nothing; an unseen one gets a new placeholder in slot `var_count + 1`, as `Plans.Plan.NewSlotMade` says |
| Plans.Plan.NewSlot | syft/messaging/plan/plan.py:207-218 | the unseen-id branch: stored first, marked as input on request, and as output i when the id is result id i; raises AttributeError before `build` without counting the slot |
| Plans.Plan.MarkInput | syft/messaging/plan/plan.py:211-213 | appends the placeholder to the inputs and tags it `#input` |
| Plans.Plan.MarkOutput | syft/messaging/plan/plan.py:215-217 | a result id makes the placeholder an output tagged with its index; otherwise nothing changes |
| Plans.Plan.ReplaceWithPlaceholders | syft/messaging/plan/plan.py:206-235 | keeps list, tuple and dict structure and keys, keeps scalars and None, maps tensors to their placeholders, raises TypeError exactly on unsupported values; the slots change as `Plans.Grown` says: only ids of tensors inside the value are added, in order of first appearance; on request the new placeholders are appended to the inputs, and the new result ids' ones to the outputs; on success the counter rises by the number of new keys |
| Plans.Plan.ReplaceAll | syft/messaging/plan/plan.py:223-225 | item by item replacement of a list or tuple, the slots growing as `Plans.Grown` says for the tensors of the whole list |
| Plans.Plan.ReplaceEntries | syft/messaging/plan/plan.py:226-227 | value by value replacement of a dict, keys kept, the slots growing as `Plans.Grown` says for the tensors of the whole dict |
| Plans.Plan.ReplaceTensor | syft/messaging/plan/plan.py:206-220 | a tensor's placeholder is the one stored under its id; AttributeError is raised exactly for an unseen id when outputs are asked for before `build`; the slots grow by that one id as `Plans.Grown` says |
| Plans.GrownAdd | syft/messaging/plan/plan.py:206-220 | one `add_placeholder` call is a run in the sense of `Plans.Grown`: a seen id adds nothing; an unseen id is added last, appended to the inputs on request and to the outputs when it is a result id, and counted unless it raises |
| Plans.GrownTrans | syft/messaging/plan/plan.py:222-227 | a run that did not raise followed by a run is one run, with the added keys one after the other |
| Plans.Plan.FindPlaceholders | syft/messaging/plan/plan.py:237-246 | the matches in dictionary order, one per matching (search tag, tag) pair; a placeholder is reported exactly when one of its tags contains a search tag |
| Plans.FindIn | syft/messaging/plan/plan.py:239-244 | the outer loop computes the matches of all placeholders in order |
| Plans.SearchHits | syft/messaging/plan/plan.py:240-244 | the middle loop computes one placeholder's matches |
| Plans.TagHits | syft/messaging/plan/plan.py:241-244 | the inner loop reports the placeholder once per tag containing the search tag |
| Plans.TensorIds | syft/messaging/plan/plan.py:143 | the keys the state tensors are stored under are their ids, in order |
| Plans.Plan.Send | syft/messaging/plan/plan.py:399-439 | raises RuntimeError when neither built nor forced; otherwise cached locations reuse their pointers, the others are sent to once and cached, every location ends up cached, and the result for several locations lists the remote ids in argument order |
| Plans.Plan.SendEach | syft/messaging/plan/plan.py:423-437 | the multi-location loop, as `Plans.Sent` says |
| Plans.Plan.SendOnce | syft/messaging/plan/plan.py:425-433 | a cached location returns its pointer unchanged and sends nothing; another is sent to once and cached |
| Procedures.Procedure.constructor | syft/messaging/plan/procedure.py:26-29 | each non-empty list argument is kept as the same object; None or an empty list becomes a new empty list |
| Procedures.OrEmpty | syft/messaging/plan/procedure.py:27-29 | `x or []` on a list |
| Procedures.Procedure.ToString | syft/messaging/plan/procedure.py:31-32 | the text is `<Procedure #operations:` then the decimal digits of the count of operations with no leading zero (just `0` for none), then `>` |
| Procedures.Procedure.Copy | syft/messaging/plan/procedure.py:37-44 | a new procedure with equal lists that shares each non-empty list object |
| Procedures.Procedure.UpdateInputs | syft/messaging/plan/procedure.py:46-56 | input i is bound to argument i below the shorter length; later inputs are untouched; extra arguments are ignored; lists keep their length |
| Procedures.Procedure.Simplify | syft/messaging/plan/procedure.py:58-64 | the operations as they are and each placeholder in both lists in wire form |
| Procedures.Detail | syft/messaging/plan/procedure.py:66-75 | the operations as sent; inputs, then outputs, through the table, keeping old entries; only keys of the wires are added, and every placeholder made for a new key, input or output, is a new unbound one made from its wire |
| Procedures.DetailNew | syft/messaging/plan/procedure.py:66-75 | on wires whose tag keys are all new, with truthy ids and one wire per key, the detailed procedure simplifies back to the wire and all its placeholders are new, unbound and owned by the worker |
| Procedures.RoundTrip | syft/messaging/plan/procedure.py:58-75 | on a table holding none of p's tag keys, as `Plan.detail` leaves it after emptying it (syft/messaging/plan/plan.py:552), with truthy ids and one placeholder per key: `detail(simplify(p))` simplifies to what p simplifies to (the same operations, inputs and outputs), and its placeholders are new, unbound and owned by the worker |

## Left out

- `State.create_grad_if_missing`: depends on torch autograd and floating-point gradient arithmetic.
- `State.get_`, `Plan.get_`: these fetch remote shared tensors, a call into the network.
- Placeholders.Placeholder.Copy: in the code the copy is handed the original's tag set object, so a tag added through one shows on the other; the model gives the copy an equal tag list of its own. The plan never relies on the sharing, because `State.read` resets the copy's tags before tagging it.
- The commented-out `fix_precision_`, `float_precision_` and `share_` stubs.
- `State.__str__`, `PlaceHolder.__str__` and the other string forms except Procedure's: they depend on set order and on the child tensor's own string form.
- `Plan.build`, `Plan.__call__` and `Plan.run`: they depend on the global tracing hook, on a user function, and on executing operations through `eval`/`getattr`.
- `Plan.copy`, `Plan.simplify`, `Plan.detail`: field-by-field delegation to the codec. The state part of `Plan.copy` is covered by `StateSpec.SetCloneStateDict`.
- The `procedure`, `name`, `nested_states`, `include_state` and `forward` fields of a plan, which carry no slot bookkeeping.
- The `FrameworkLayerModule` case of `__setattr__`: `named_tensors` is a library call. Non-tensor attributes, which only go through `object.__setattr__`, are left out too.
- `owner.send`, `PointerPlan` and messaging: a send returns a new pointer whose remote id is the plan's id and is recorded in the worker's `sentTo`.
- `sy.framework.hook.create_zeros`, `tensor.clone()` and `register_obj` internals:
  - `_create_placeholders` returns the mapped shapes;
  - `clone` is a parameter;
  - registration is a map update.
- `find_placeholders` uses a regular-expression search `.*tag.*`. It is modelled as substring containment, which agrees only for search tags without regex metacharacters.
- A Python set's iteration order is modelled as insertion order. The model therefore gives one fixed order to `"-".join(tags)`, the table key.
  - Distinct tag sets can share a key, such as `{"a-b"}` and `{"a", "b"}`. The model keeps that behaviour as the code does.
- Python list aliasing inside `State` and `Plan`: their lists are sequence-valued fields. So the model does not capture a state list that is also referenced elsewhere, in particular a parent state that shares its list with the state being read.
- `Procedure` lists are shared objects: `Procedures.Procedure.Copy` aliases only non-empty lists, because `x or []` replaces an empty list by a new one.
- `PlaceHolder(tags=None)` is modelled with the empty tag list. In the code a placeholder whose tags are None cannot go through `detail`, because `"-".join(None)` raises a TypeError; the model has no such error.
- `State` and `init_plan` truthiness: a missing `init_plan` is `null`, and an `ObjectStorage` length is not modelled.
- Placeholders.DetailList: for a new placeholder whose wire id is falsy, it states only that the drawn id is at least the provider's counter at the start, not which draw it was.
- Plans.State.Detail: for a new placeholder whose wire id is falsy, the id is stated as in `Placeholders.DetailList`.
- Plans.State.RoundTrip: assumes truthy ids, bound placeholders, and tag keys that are distinct and absent from the table. A falsy id is redrawn, two placeholders with one key come back as one object, and a key already in the table returns the stored object, so the round trip does not hold without these assumptions.
- Procedures.RoundTrip: assumes truthy ids, tag keys absent from the table, and one wire per key, for the same reasons.
- Procedures.Detail: an operation holds its argument and result placeholders in the code (syft/messaging/plan/plan.py:279-285), and `Procedure.detail` details the operations first through the same table (syft/messaging/plan/procedure.py:70). The model's operations hold only ids and are not detailed through the table. So the model does not capture that the inputs and outputs, and then the state (syft/messaging/plan/plan.py:555), come back as the operations' own placeholder objects.
- Procedures.RoundTrip and Plans.State.RoundTrip: for the same reason, in the code the tag keys these round trips require to be absent from the table are normally already there, put in by the operations. The round trips state the case of a table without them, and do not state the case where the inputs, outputs and state placeholders are found in the table as the operations' objects.
- Plans.State.Read: the copies and their slot numbers are ghost results, stated through `Plans.Plan.Promoted`.
